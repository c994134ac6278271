/** The rules engine of `class Game`: the board, the players in turn order, the
    index of the current player and whether the game is over. */
module Connect4 {
  import opened Optional
  import opened Board
  import opened Win
  import opened Turns
  import opened Players

  /** The board size a game is started with. */
  const DefaultHeight: nat := 6
  const DefaultWidth: nat := 7

  class Game {
    const players: seq<Player>
    const height: nat
    const width: nat
    var board: Grid
    /** The index of `currPlayer` in `players`. */
    var turn: nat
    var gameOver: bool

    /** The object invariant: a current player exists, names are non-empty (so a
        cell is truthy exactly when it holds a name), the board has its size and
        every column's pieces rest on the bottom. */
    ghost predicate Valid()
      reads this
    {
      |players| > 0 && turn < |players| &&
      (forall i :: 0 <= i < |players| ==> players[i].name != "") &&
      Shape(board, height, width) && Settled(board, height, width)
    }

    /** `currPlayer`: the player whose piece is dropped next. */
    function CurrPlayer(): (p: Player)
      reads this
      requires Valid()
      ensures p in players && p.name != ""
    {
      players[turn]
    }

    constructor (playerObjs: seq<Player>, height: nat, width: nat)
      requires |playerObjs| > 0
      requires forall i :: 0 <= i < |playerObjs| ==> playerObjs[i].name != ""
      ensures Valid()
      ensures players == playerObjs && this.height == height && this.width == width
      ensures board == EmptyBoard(height, width)
      ensures turn == 0 && !gameOver
    {
      players := playerObjs;
      this.height := height;
      this.width := width;
      turn := 0;
      board := [];
      gameOver := false;
      new;
      MakeBoard();
      EmptyBoardSettled(height, width);
    }

    /** Builds `board` by pushing `height` empty rows of `width` cells. */
    method MakeBoard()
      modifies this`board
      ensures board == EmptyBoard(height, width)
    {
      board := [];
      for y := 0 to height
        invariant board == EmptyBoard(y, width)
      {
        board := board + [seq(width, _ => Empty)];
      }
    }

    /** Scans column `x` from the bottom row upwards for an empty cell. */
    method FindSpotForCol(x: nat) returns (spot: Option<nat>)
      requires Valid() && x < width
      ensures spot == LowestEmptyRow(board, height, width, x)
      // What `LowestEmptyRow` promises, restated for callers of the method.
      ensures spot.Some? ==> (spot.value < height && board[spot.value][x] == Empty &&
                              forall y :: spot.value < y < height ==> board[y][x] != Empty)
      ensures spot.None? <==> forall y :: 0 <= y < height ==> board[y][x] != Empty
    {
      var y: int := height - 1;
      while y >= 0
        invariant -1 <= y < height
        invariant LowestEmptyFrom(board, height, width, x, y) == LowestEmptyRow(board, height, width, x)
        decreases y + 1
      {
        if board[y][x] == Empty {
          return Some(y);
        }
        y := y - 1;
      }
      return None;
    }

    /** Ends the game when every cell is filled. */
    method CheckForTie()
      requires Valid()
      modifies this`gameOver
      ensures Valid()
      ensures gameOver == (old(gameOver) || EveryCellFilled(board))
    {
      if EveryCellFilled(board) {
        gameOver := true;
      }
    }

    /** Ends the game when the current player has four in a row. */
    method DidSomeoneWin()
      requires Valid()
      modifies this`gameOver
      ensures Valid()
      ensures gameOver == (old(gameOver) || Wins(AsWritten, board, height, width, CurrPlayer().name))
    {
      var won := CheckForWin();
      if won {
        gameOver := true;
      }
    }

    /** Makes the next player in the list current, wrapping after the last. */
    method SwitchPlayers()
      requires Valid()
      modifies this`turn
      ensures Valid()
      ensures turn == NextTurn(old(turn), |players|)
    {
      var index := turn;
      var newIndex := (index + 1) % |players|;
      turn := newIndex;
    }

    /** Tries the four templates at every origin cell, in row-major order, and
        stops at the first that wins; `false` where the source falls off the end
        and returns `undefined`. */
    method CheckForWin() returns (won: bool)
      requires Valid()
      ensures won <==> Wins(AsWritten, board, height, width, CurrPlayer().name)
    {
      var b, h, w, name := board, height, width, players[turn].name;
      for y := 0 to h
        invariant forall y', x' :: 0 <= y' < y && 0 <= x' < w ==> !WinFrom(AsWritten, b, h, w, name, y', x')
      {
        for x := 0 to w
          invariant forall y', x' :: 0 <= y' < y && 0 <= x' < w ==> !WinFrom(AsWritten, b, h, w, name, y', x')
          invariant forall x' :: 0 <= x' < x ==> !WinFrom(AsWritten, b, h, w, name, y, x')
        {
          var horiz := Template(y, x, Horiz);
          var vert := Template(y, x, Vert);
          var diagDR := Template(y, x, DiagDR);
          var diagDL := Template(y, x, DiagDL);
          if LineWins(AsWritten, b, h, w, name, horiz) || LineWins(AsWritten, b, h, w, name, vert) ||
             LineWins(AsWritten, b, h, w, name, diagDR) || LineWins(AsWritten, b, h, w, name, diagDL) {
            OriginGivesWins(AsWritten, b, h, w, name, y, x);
            return true;
          }
          assert forall x' :: 0 <= x' < x + 1 ==> !WinFrom(AsWritten, b, h, w, name, y, x') by {
            assert !WinFrom(AsWritten, b, h, w, name, y, x);
          }
        }
      }
      NoOriginNoWins(AsWritten, b, h, w, name);
      return false;
    }

    /** A click on column `x` (the rules part of `handleClick`): while the game
        is on and the column has room, the current player's name goes into the
        column's lowest empty cell, the tie and win checks run, and the turn
        passes on whatever they found. */
    method Drop(x: nat)
      requires Valid() && x < width
      modifies this`board, this`turn, this`gameOver
      ensures Valid()
      ensures old(gameOver) || LowestEmptyRow(old(board), height, width, x).None? ==>
                board == old(board) && turn == old(turn) && gameOver == old(gameOver)
      ensures !old(gameOver) && LowestEmptyRow(old(board), height, width, x).Some? ==>
                var y := LowestEmptyRow(old(board), height, width, x).value;
                var mover := players[old(turn)].name;
                board == Place(old(board), height, width, y, x, Mark(mover)) &&
                gameOver == (EveryCellFilled(board) || Wins(AsWritten, board, height, width, mover)) &&
                turn == NextTurn(old(turn), |players|)
      ensures forall y, x' :: 0 <= y < height && 0 <= x' < width && old(board[y][x']) != Empty ==>
                board[y][x'] == old(board[y][x'])
    {
      if !gameOver {
        var y := FindSpotForCol(x);
        if y.None? {
          return;
        }
        DropKeepsSettled(board, height, width, x, Mark(players[turn].name));
        board := Place(board, height, width, y.value, x, Mark(players[turn].name));
        CheckForTie();
        DidSomeoneWin();
        SwitchPlayers();
      }
    }
  }

  /** Game setup: the player-count gate, the players named "p1".."pn" with the
      colours typed in, the duplicate-colour check, then a default-size game. */
  method NewGame(count: int, colors: seq<string>) returns (game: Game?)
    requires ValidPlayerCount(count) ==> |colors| == count
    ensures game != null <==> ValidPlayerCount(count) && !HasDuplicateColors(MakePlayers(colors))
    ensures game != null ==> (fresh(game) && game.Valid() && game.players == MakePlayers(colors) &&
                              game.height == DefaultHeight && game.width == DefaultWidth &&
                              game.board == EmptyBoard(DefaultHeight, DefaultWidth) &&
                              game.turn == 0 && !game.gameOver)
  {
    if !ValidPlayerCount(count) {
      return null;
    }
    var players := SetUpPlayers(colors);
    if players.None? {
      return null;
    }
    game := new Game(players.value, DefaultHeight, DefaultWidth);
  }
}
