/** The Chinese-chess board of components/ChineseChess.tsx: the standard
    opening layout (`setupStandardBoard`), the two endgame puzzles
    (`ENDGAMES`), the legality stub (`isMoveLegalBasic`), moving a piece
    (`executeMove`) and the select-then-move click handler (`handleClick`).
    Rows run from 0 (Black's back rank) to 9 (Red's), columns from 0 to 8. */
module ChineseChess {
  import opened Wrappers
  import opened HubTypes

  const Rows := 10
  const Cols := 9

  datatype Side = Red | Black

  /** `ChessPieceType`: king, advisor, elephant, horse, chariot (`C`),
      cannon (`N`) and pawn. */
  datatype Kind = K | A | E | H | C | N | P

  /** `ChessPiece`. */
  datatype Piece = Piece(kind: Kind, side: Side)

  /** `ChessPos`. */
  datatype Square = Square(r: int, c: int)

  /** A cell is `null` (`None`) or holds a piece. */
  type Board = seq<seq<Option<Piece>>>

  predicate IsBoard(b: Board) {
    |b| == Rows && forall i :: 0 <= i < |b| ==> |b[i]| == Cols
  }

  predicate OnBoard(r: int, c: int) {
    0 <= r < Rows && 0 <= c < Cols
  }

  /** The side that moves after `s`. */
  function Other(s: Side): Side {
    if s == Red then Black else Red
  }

  /** The cell holds a piece of side `s`: `p?.side === s`. */
  predicate Counts(x: Option<Piece>, s: Side) {
    x.Some? && x.value.side == s
  }

  /** `Array(10).fill(null).map(() => Array(9).fill(null))`. */
  function EmptyBoard(): (b: Board)
    ensures IsBoard(b) && forall r, c :: OnBoard(r, c) ==> b[r][c] == None
  {
    seq(Rows, _ => seq(Cols, _ => None))
  }

  /** The board after the assignment `b[r][c] = x`. */
  function Put(b: Board, r: int, c: int, x: Option<Piece>): (b': Board)
    requires IsBoard(b) && OnBoard(r, c)
    ensures IsBoard(b')
    ensures forall i, j :: OnBoard(i, j) ==> b'[i][j] == if i == r && j == c then x else b[i][j]
  {
    b[r := b[r][c := x]]
  }

  // ---------------------------------------------------------------------
  // Counting pieces
  // ---------------------------------------------------------------------

  /** The pieces of side `s` among the first `j` cells of a row. */
  function RowTally(row: seq<Option<Piece>>, s: Side, j: int): nat
    requires 0 <= j <= |row|
  {
    if j == 0 then 0 else RowTally(row, s, j - 1) + (if Counts(row[j - 1], s) then 1 else 0)
  }

  /** The pieces of side `s` in the first `i` rows. */
  function Tally(b: Board, s: Side, i: int): nat
    requires IsBoard(b) && 0 <= i <= Rows
  {
    if i == 0 then 0 else Tally(b, s, i - 1) + RowTally(b[i - 1], s, Cols)
  }

  /** The pieces of side `s` on the board. */
  function PieceCount(b: Board, s: Side): nat
    requires IsBoard(b)
  {
    Tally(b, s, Rows)
  }

  lemma {:induction false} RowTallyPut(row: seq<Option<Piece>>, c: int, x: Option<Piece>, s: Side, j: int)
    requires 0 <= c < |row| && 0 <= j <= |row|
    ensures RowTally(row[c := x], s, j) + (if c < j && Counts(row[c], s) then 1 else 0) ==
      RowTally(row, s, j) + (if c < j && Counts(x, s) then 1 else 0)
  {
    if j > 0 {
      RowTallyPut(row, c, x, s, j - 1);
    }
  }

  lemma {:induction false} TallyPut(b: Board, r: int, c: int, x: Option<Piece>, s: Side, i: int)
    requires IsBoard(b) && OnBoard(r, c) && 0 <= i <= Rows
    ensures Tally(Put(b, r, c, x), s, i) + (if r < i && Counts(b[r][c], s) then 1 else 0) ==
      Tally(b, s, i) + (if r < i && Counts(x, s) then 1 else 0)
  {
    if i > 0 {
      TallyPut(b, r, c, x, s, i - 1);
      if i - 1 == r {
        RowTallyPut(b[r], c, x, s, Cols);
      } else {
        assert Put(b, r, c, x)[i - 1] == b[i - 1];
      }
    }
  }

  /** One assignment to a cell loses the piece that stood there and gains
      the one written. */
  lemma PieceCountPut(b: Board, r: int, c: int, x: Option<Piece>, s: Side)
    requires IsBoard(b) && OnBoard(r, c)
    ensures PieceCount(Put(b, r, c, x), s) + (if Counts(b[r][c], s) then 1 else 0) ==
      PieceCount(b, s) + (if Counts(x, s) then 1 else 0)
  {
    TallyPut(b, r, c, x, s, Rows);
  }

  // ---------------------------------------------------------------------
  // The standard layout
  // ---------------------------------------------------------------------

  /** The order in which `setupStandardBoard` lays out the sides. */
  const Sides: seq<Side> := [Black, Red]

  /** The back rank (`r`), the cannon row (`cR`) and the pawn row (`pR`)
      of side number `idx`. */
  function HomeRow(idx: int): int { if idx == 0 then 0 else 9 }
  function CannonRow(idx: int): int { if idx == 0 then 2 else 7 }
  function PawnRow(idx: int): int { if idx == 0 then 3 else 6 }

  /** The back rank from column 0 to 8: chariot, horse, elephant, advisor,
      king, advisor, elephant, horse, chariot. */
  function BackRank(c: int): Kind {
    if c == 0 || c == 8 then C
    else if c == 1 || c == 7 then H
    else if c == 2 || c == 6 then E
    else if c == 3 || c == 5 then A
    else K
  }

  /** What the round of `setupStandardBoard` for side number `idx` puts on
      `(r, c)`, if anything. */
  function SidePiece(idx: int, r: int, c: int): Option<Piece>
    requires 0 <= idx < |Sides|
  {
    if r == HomeRow(idx) && 0 <= c < Cols then Some(Piece(BackRank(c), Sides[idx]))
    else if r == CannonRow(idx) && (c == 1 || c == 7) then Some(Piece(N, Sides[idx]))
    else if r == PawnRow(idx) && 0 <= c < Cols && c % 2 == 0 then Some(Piece(P, Sides[idx]))
    else None
  }

  /** The cell `(r, c)` after the first `n` of the two rounds, the later
      round overwriting the earlier one. */
  function LayoutAfter(n: int, r: int, c: int): Option<Piece> {
    if n >= 2 && SidePiece(1, r, c).Some? then SidePiece(1, r, c)
    else if n >= 1 && SidePiece(0, r, c).Some? then SidePiece(0, r, c)
    else None
  }

  /** The opening position. */
  function StandardPiece(r: int, c: int): Option<Piece> {
    LayoutAfter(2, r, c)
  }

  /** The back-rank assignments of `setupStandardBoard` on row `r`. */
  method PlaceBackRank(b0: Board, r: int, side: Side) returns (b: Board)
    requires IsBoard(b0) && 0 <= r < Rows
    ensures IsBoard(b)
    ensures forall rr, cc :: OnBoard(rr, cc) ==>
      b[rr][cc] == if rr == r then Some(Piece(BackRank(cc), side)) else b0[rr][cc]
  {
    b := Put(b0, r, 0, Some(Piece(C, side)));
    b := Put(b, r, 8, Some(Piece(C, side)));
    b := Put(b, r, 1, Some(Piece(H, side)));
    b := Put(b, r, 7, Some(Piece(H, side)));
    b := Put(b, r, 2, Some(Piece(E, side)));
    b := Put(b, r, 6, Some(Piece(E, side)));
    b := Put(b, r, 3, Some(Piece(A, side)));
    b := Put(b, r, 5, Some(Piece(A, side)));
    b := Put(b, r, 4, Some(Piece(K, side)));
  }

  /** The pawn loop of `setupStandardBoard` on row `pR`: a pawn on every
      even column. */
  method PlacePawns(b0: Board, pR: int, side: Side) returns (b: Board)
    requires IsBoard(b0) && 0 <= pR < Rows
    ensures IsBoard(b)
    ensures forall rr, cc :: OnBoard(rr, cc) ==>
      b[rr][cc] == if rr == pR && cc % 2 == 0 then Some(Piece(P, side)) else b0[rr][cc]
  {
    b := b0;
    var i := 0;
    while i < 9
      invariant 0 <= i <= 10 && i % 2 == 0 && IsBoard(b)
      invariant forall rr, cc :: OnBoard(rr, cc) ==>
        b[rr][cc] == if rr == pR && cc % 2 == 0 && cc < i then Some(Piece(P, side)) else b0[rr][cc]
    {
      b := Put(b, pR, i, Some(Piece(P, side)));
      i := i + 2;
    }
  }

  /** One round of the `forEach` of `setupStandardBoard`: writes side
      `idx`'s back rank, its two cannons and its five pawns, and no other cell. */
  method PlaceSide(b0: Board, idx: int) returns (b: Board)
    requires IsBoard(b0) && 0 <= idx < |Sides|
    ensures IsBoard(b)
    ensures forall r, c :: OnBoard(r, c) ==>
      b[r][c] == if SidePiece(idx, r, c).Some? then SidePiece(idx, r, c) else b0[r][c]
  {
    var side := Sides[idx];
    var r := if idx == 0 then 0 else 9;
    var pR := if idx == 0 then 3 else 6;
    var cR := if idx == 0 then 2 else 7;
    b := PlaceBackRank(b0, r, side);
    b := Put(b, cR, 1, Some(Piece(N, side)));
    b := Put(b, cR, 7, Some(Piece(N, side)));
    b := PlacePawns(b, pR, side);
  }

  /** `setupStandardBoard`. */
  method SetupStandardBoard() returns (b: Board)
    ensures IsBoard(b) && forall r, c :: OnBoard(r, c) ==> b[r][c] == StandardPiece(r, c)
  {
    b := EmptyBoard();
    var idx := 0;
    while idx < |Sides|
      invariant 0 <= idx <= |Sides| && IsBoard(b)
      invariant forall r, c :: OnBoard(r, c) ==> b[r][c] == LayoutAfter(idx, r, c)
    {
      b := PlaceSide(b, idx);
      idx := idx + 1;
    }
  }

  /** The pieces of side `s` in the first `j` cells of row `r` of the
      opening position. */
  function StandardRowTally(r: int, s: Side, j: int): int {
    var idx := if s == Black then 0 else 1;
    if r == HomeRow(idx) then j
    else if r == CannonRow(idx) then (if j > 1 then 1 else 0) + (if j > 7 then 1 else 0)
    else if r == PawnRow(idx) then (j + 1) / 2
    else 0
  }

  lemma {:induction false} RowTallyStandard(b: Board, r: int, s: Side, j: int)
    requires IsBoard(b) && forall rr, cc :: OnBoard(rr, cc) ==> b[rr][cc] == StandardPiece(rr, cc)
    requires 0 <= r < Rows && 0 <= j <= Cols
    ensures RowTally(b[r], s, j) == StandardRowTally(r, s, j)
  {
    if j > 0 {
      RowTallyStandard(b, r, s, j - 1);
      assert b[r][j - 1] == StandardPiece(r, j - 1);
      assert Sides[0] == Black && Sides[1] == Red;
    }
  }

  lemma {:induction false} TallyStandard(b: Board, s: Side, i: int)
    requires IsBoard(b) && forall rr, cc :: OnBoard(rr, cc) ==> b[rr][cc] == StandardPiece(rr, cc)
    requires 0 <= i <= Rows
    ensures var idx := if s == Black then 0 else 1;
      Tally(b, s, i) ==
        (if i > HomeRow(idx) then 9 else 0) + (if i > CannonRow(idx) then 2 else 0) + (if i > PawnRow(idx) then 5 else 0)
  {
    if i > 0 {
      TallyStandard(b, s, i - 1);
      RowTallyStandard(b, i - 1, s, Cols);
    }
  }

  /** The opening position has sixteen pieces a side. */
  lemma StandardPieceCount(b: Board)
    requires IsBoard(b) && forall rr, cc :: OnBoard(rr, cc) ==> b[rr][cc] == StandardPiece(rr, cc)
    ensures PieceCount(b, Black) == 16 && PieceCount(b, Red) == 16
  {
    TallyStandard(b, Black, Rows);
    TallyStandard(b, Red, Rows);
  }

  /** Side `s`'s king stands on `sq` and nowhere else. */
  ghost predicate OnlyKingAt(b: Board, s: Side, sq: Square)
    requires IsBoard(b)
  {
    forall r, c :: OnBoard(r, c) ==> (b[r][c] == Some(Piece(K, s)) <==> r == sq.r && c == sq.c)
  }

  /** In the opening position the black king is on (0, 4), the red king on
      (9, 4), and the pawns of each side on the even columns of rows 3 and 6. */
  lemma StandardLayout()
    ensures forall r, c :: OnBoard(r, c) ==>
      (StandardPiece(r, c) == Some(Piece(K, Black)) <==> r == 0 && c == 4) &&
      (StandardPiece(r, c) == Some(Piece(K, Red)) <==> r == 9 && c == 4) &&
      (StandardPiece(r, c) == Some(Piece(P, Black)) <==> r == 3 && c % 2 == 0) &&
      (StandardPiece(r, c) == Some(Piece(P, Red)) <==> r == 6 && c % 2 == 0)
  {
  }

  /** The piece `x` with its side changed. */
  function Mirror(x: Option<Piece>): Option<Piece> {
    if x.Some? then Some(Piece(x.value.kind, Other(x.value.side))) else None
  }

  /** The two armies are mirror images across the river. */
  lemma StandardMirrored()
    ensures forall r, c :: OnBoard(r, c) ==> StandardPiece(Rows - 1 - r, c) == Mirror(StandardPiece(r, c))
  {
    assert Sides[0] == Black && Sides[1] == Red;
    forall r, c | OnBoard(r, c)
      ensures StandardPiece(Rows - 1 - r, c) == Mirror(StandardPiece(r, c))
    {
    }
  }

  // ---------------------------------------------------------------------
  // The endgame puzzles
  // ---------------------------------------------------------------------

  /** `ENDGAMES.length`. */
  const EndgameCount := 2

  /** The position of endgame `level`: 0 is "七星聚会" and 1 is "飞将夺魁". */
  function EndgamePiece(level: int, r: int, c: int): Option<Piece> {
    if level == 0 then
      if r == 0 && c == 4 then Some(Piece(K, Black))
      else if r == 9 && c == 4 then Some(Piece(K, Red))
      else if r == 1 && c == 4 then Some(Piece(P, Black))
      else if r == 8 && c == 4 then Some(Piece(C, Red))
      else if r == 2 && c == 1 then Some(Piece(N, Black))
      else None
    else
      if r == 0 && c == 5 then Some(Piece(K, Black))
      else if r == 9 && c == 5 then Some(Piece(K, Red))
      else if r == 7 && c == 5 then Some(Piece(C, Red))
      else if r == 1 && c == 5 then Some(Piece(P, Black))
      else None
  }

  /** Where side `s`'s king stands in endgame `level`. */
  function EndgameKing(level: int, s: Side): Square {
    Square(if s == Black then 0 else 9, if level == 0 then 4 else 5)
  }

  /** `ENDGAMES[level].board()`: an empty board with the puzzle's pieces written in. */
  method EndgameBoard(level: int) returns (b: Board)
    requires 0 <= level < EndgameCount
    ensures IsBoard(b) && forall r, c :: OnBoard(r, c) ==> b[r][c] == EndgamePiece(level, r, c)
    ensures OnlyKingAt(b, Black, EndgameKing(level, Black)) && OnlyKingAt(b, Red, EndgameKing(level, Red))
  {
    b := EmptyBoard();
    if level == 0 {
      b := Put(b, 0, 4, Some(Piece(K, Black)));
      b := Put(b, 9, 4, Some(Piece(K, Red)));
      b := Put(b, 1, 4, Some(Piece(P, Black)));
      b := Put(b, 8, 4, Some(Piece(C, Red)));
      b := Put(b, 2, 1, Some(Piece(N, Black)));
    } else {
      b := Put(b, 0, 5, Some(Piece(K, Black)));
      b := Put(b, 9, 5, Some(Piece(K, Red)));
      b := Put(b, 7, 5, Some(Piece(C, Red)));
      b := Put(b, 1, 5, Some(Piece(P, Black)));
    }
  }

  // ---------------------------------------------------------------------
  // Moves
  // ---------------------------------------------------------------------

  /** `isMoveLegalBasic(sr, sc, tr, tc, b)`: there must be a piece on the
      source and no piece of its own side on the target; every other move
      is accepted, whatever the pieces' movement rules. */
  function IsMoveLegalBasic(sr: int, sc: int, tr: int, tc: int, b: Board): (ok: bool)
    requires IsBoard(b) && OnBoard(sr, sc) && OnBoard(tr, tc)
    ensures !ok <==> b[sr][sc].None? || Counts(b[tr][tc], b[sr][sc].value.side)
  {
    var p := b[sr][sc];
    var target := b[tr][tc];
    !(p.None? || (target.Some? && target.value.side == p.value.side))
  }

  /** The board `executeMove(sr, sc, tr, tc)` installs: the source piece is
      copied onto the target, then the source is cleared. */
  function Moved(b: Board, sr: int, sc: int, tr: int, tc: int): Board
    requires IsBoard(b) && OnBoard(sr, sc) && OnBoard(tr, tc)
  {
    Put(Put(b, tr, tc, b[sr][sc]), sr, sc, None)
  }

  /** A move puts the source piece on the target and empties the source,
      and no other cell changes; a move onto its own square empties it. */
  lemma MovedCells(b: Board, sr: int, sc: int, tr: int, tc: int)
    requires IsBoard(b) && OnBoard(sr, sc) && OnBoard(tr, tc)
    ensures IsBoard(Moved(b, sr, sc, tr, tc))
    ensures (sr, sc) != (tr, tc) ==> Moved(b, sr, sc, tr, tc)[tr][tc] == b[sr][sc]
    ensures Moved(b, sr, sc, tr, tc)[sr][sc] == None
    ensures forall r, c :: OnBoard(r, c) && (r, c) != (sr, sc) && (r, c) != (tr, tc) ==>
      Moved(b, sr, sc, tr, tc)[r][c] == b[r][c]
  {
  }

  /** Every move loses exactly the piece that stood on the target: each
      side's count drops by one if that piece was its own, and is otherwise
      unchanged. */
  lemma MovedPieceCount(b: Board, sr: int, sc: int, tr: int, tc: int, s: Side)
    requires IsBoard(b) && OnBoard(sr, sc) && OnBoard(tr, tc)
    ensures PieceCount(Moved(b, sr, sc, tr, tc), s) + (if Counts(b[tr][tc], s) then 1 else 0) == PieceCount(b, s)
  {
    var b1 := Put(b, tr, tc, b[sr][sc]);
    PieceCountPut(b, tr, tc, b[sr][sc], s);
    PieceCountPut(b1, sr, sc, None, s);
    if (sr, sc) != (tr, tc) {
      assert b1[sr][sc] == b[sr][sc];
    }
  }

  /** A move `isMoveLegalBasic` accepts keeps every piece of the side that
      moves, and takes one piece from the other side exactly when the
      target held one. */
  lemma LegalMoveCounts(b: Board, sr: int, sc: int, tr: int, tc: int)
    requires IsBoard(b) && OnBoard(sr, sc) && OnBoard(tr, tc)
    requires IsMoveLegalBasic(sr, sc, tr, tc, b)
    ensures var s := b[sr][sc].value.side;
      PieceCount(Moved(b, sr, sc, tr, tc), s) == PieceCount(b, s) &&
      PieceCount(Moved(b, sr, sc, tr, tc), Other(s)) == PieceCount(b, Other(s)) - (if b[tr][tc].Some? then 1 else 0)
  {
    var s := b[sr][sc].value.side;
    MovedPieceCount(b, sr, sc, tr, tc, s);
    MovedPieceCount(b, sr, sc, tr, tc, Other(s));
  }

  /** The component's state. `level` is the puzzle shown in single-player
      mode; nothing sets `winner` or `isThinking` after mounting. */
  class ChessGame {
    const mode: GameMode
    const level: int
    var board: Board
    var selected: Option<Square>
    var turn: Side
    var winner: Option<Side>
    var thinking: bool

    /** A selection is always a square holding a piece of the side to move. */
    ghost predicate Valid()
      reads this
    {
      IsBoard(board) &&
      (selected.Some? ==> OnBoard(selected.value.r, selected.value.c) && Counts(board[selected.value.r][selected.value.c], turn))
    }

    /** The component mounts on the first puzzle in single-player mode and
      on the opening position otherwise, with Red to move. */
    constructor(mode: GameMode)
      ensures Valid()
      ensures this.mode == mode && level == 0
      ensures selected == None && turn == Red && winner == None && !thinking
      ensures mode == Single ==> forall r, c :: OnBoard(r, c) ==> board[r][c] == EndgamePiece(0, r, c)
      ensures mode != Single ==> forall r, c :: OnBoard(r, c) ==> board[r][c] == StandardPiece(r, c)
    {
      this.mode := mode;
      level := 0;
      var b;
      if mode == Single {
        b := EndgameBoard(0);
      } else {
        b := SetupStandardBoard();
      }
      board := b;
      selected, turn, winner, thinking := None, Red, None, false;
    }

    /** `executeMove(sr, sc, tr, tc)`: the move is made on a copy of the
        board, the turn passes and the selection is cleared. */
    method ExecuteMove(sr: int, sc: int, tr: int, tc: int)
      requires IsBoard(board) && OnBoard(sr, sc) && OnBoard(tr, tc)
      modifies this
      ensures board == Moved(old(board), sr, sc, tr, tc) && IsBoard(board)
      ensures turn == Other(old(turn)) && selected == None
      ensures winner == old(winner) && thinking == old(thinking)
    {
      var newBoard := board;
      newBoard := Put(newBoard, tr, tc, newBoard[sr][sc]);
      newBoard := Put(newBoard, sr, sc, None);
      board := newBoard;
      turn := if turn == Red then Black else Red;
      selected := None;
    }

    /** `handleClick(r, c)`: ignored after a win and while the AI thinks;
        a piece of the side to move is (re)selected; with a selection, any
        other square receives the selected piece without consulting
        `isMoveLegalBasic`, yet every move made this way passes it; without
        a selection nothing else happens. */
    method HandleClick(r: int, c: int)
      requires Valid() && OnBoard(r, c)
      modifies this
      ensures Valid()
      ensures old(winner).Some? || old(thinking) ==> unchanged(this)
      ensures old(winner).None? && !old(thinking) && Counts(old(board)[r][c], old(turn)) ==>
        selected == Some(Square(r, c)) && board == old(board) && turn == old(turn)
      ensures old(winner).None? && !old(thinking) && !Counts(old(board)[r][c], old(turn)) && old(selected).Some? ==>
        var s := old(selected).value;
        IsMoveLegalBasic(s.r, s.c, r, c, old(board)) &&
        board == Moved(old(board), s.r, s.c, r, c) && turn == Other(old(turn)) && selected == None
      ensures old(winner).None? && !old(thinking) && !Counts(old(board)[r][c], old(turn)) && old(selected).None? ==>
        unchanged(this)
      ensures winner == old(winner) && thinking == old(thinking)
    {
      if winner.Some? || thinking {
        return;
      }
      var p := board[r][c];
      if selected.Some? {
        if Counts(p, turn) {
          selected := Some(Square(r, c));
        } else {
          ExecuteMove(selected.value.r, selected.value.c, r, c);
        }
      } else if Counts(p, turn) {
        selected := Some(Square(r, c));
      }
    }
  }
}
