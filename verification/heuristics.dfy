/** The static evaluator of src/bot/heuristics.rs: a terminal position scores
    a sentinel (checkmate) or 0 (stalemate); any other position scores the sum,
    over the 64 squares, of material plus a piece-square bonus, signed by
    whether the piece belongs to the bot, with the king's table chosen by the
    game phase. */
module Heuristics {
  import opened Prelude
  import opened Chess

  /** A piece-square bonus. The source stores them as i8; every entry of the
      fourteen tables lies within -50..50, which the type checks. */
  type SquareBonus = x: int | -50 <= x <= 50

  /** A [i8; 64] table, written as the source lays it out: eight rows of eight,
      row r holding squares 8 * r .. 8 * r + 7 (A1 first). */
  type PieceSquareTable = t: seq<seq<SquareBonus>> | |t| == 8 && forall r :: 0 <= r < 8 ==> |t[r]| == 8
    witness seq(8, _ => seq(8, _ => 0))

  /** TABLE[square_index] */
  function Entry(t: PieceSquareTable, sq: int): SquareBonus
    requires 0 <= sq < 64
  {
    t[sq / 8][sq % 8]
  }

  const WhitePawnEvaluation: PieceSquareTable := [
    [  0,   0,   0,   0,   0,   0,   0,   0],
    [  5,  10,  10, -20, -20,  10,  10,   5],
    [  5,  -5, -10,   0,   0, -10,  -5,   5],
    [  0,   0,   0,  20,  20,   0,   0,   0],
    [  5,   5,  10,  25,  25,  10,   5,   5],
    [ 10,  10,  20,  30,  30,  20,  10,  10],
    [ 50,  50,  50,  50,  50,  50,  50,  50],
    [  0,   0,   0,   0,   0,   0,   0,   0]
  ]

  const BlackPawnEvaluation: PieceSquareTable := [
    [  0,   0,   0,   0,   0,   0,   0,   0],
    [ 50,  50,  50,  50,  50,  50,  50,  50],
    [ 10,  10,  20,  30,  30,  20,  10,  10],
    [  5,   5,  10,  25,  25,  10,   5,   5],
    [  0,   0,   0,  20,  20,   0,   0,   0],
    [  5,  -5, -10,   0,   0, -10,  -5,   5],
    [  5,  10,  10, -20, -20,  10,  10,   5],
    [  0,   0,   0,   0,   0,   0,   0,   0]
  ]

  const WhiteKnightEvaluation: PieceSquareTable := [
    [-50, -40, -30, -30, -30, -30, -40, -50],
    [-40, -20,   0,   5,   5,   0, -20, -40],
    [-30,   5,  10,  15,  15,  10,   5, -30],
    [-30,   0,  15,  20,  20,  15,   0, -30],
    [-30,   5,  15,  20,  20,  15,   5, -30],
    [-30,   0,  10,  15,  15,  10,   0, -30],
    [-40, -20,   0,   0,   0,   0, -20, -40],
    [-50, -40, -30, -30, -30, -30, -40, -50]
  ]

  const BlackKnightEvaluation: PieceSquareTable := [
    [-50, -40, -30, -30, -30, -30, -40, -50],
    [-40, -20,   0,   0,   0,   0, -20, -40],
    [-30,   0,  10,  15,  15,  10,   0, -30],
    [-30,   5,  15,  20,  20,  15,   5, -30],
    [-30,   0,  15,  20,  20,  15,   0, -30],
    [-30,   5,  10,  15,  15,  10,   5, -30],
    [-40, -20,   0,   5,   5,   0, -20, -40],
    [-50, -40, -30, -30, -30, -30, -40, -50]
  ]

  const WhiteBishopEvaluation: PieceSquareTable := [
    [-20, -10, -10, -10, -10, -10, -10, -20],
    [-10,   5,   0,   0,   0,   0,   5, -10],
    [-10,  10,  10,  10,  10,  10,  10, -10],
    [-10,   0,  10,  10,  10,  10,   0, -10],
    [-10,   5,   5,  10,  10,   5,   5, -10],
    [-10,   0,   5,  10,  10,   5,   0, -10],
    [-10,   0,   0,   0,   0,   0,   0, -10],
    [-20, -10, -10, -10, -10, -10, -10, -20]
  ]

  const BlackBishopEvaluation: PieceSquareTable := [
    [-20, -10, -10, -10, -10, -10, -10, -20],
    [-10,   0,   0,   0,   0,   0,   0, -10],
    [-10,   0,   5,  10,  10,   5,   0, -10],
    [-10,   5,   5,  10,  10,   5,   5, -10],
    [-10,   0,  10,  10,  10,  10,   0, -10],
    [-10,  10,  10,  10,  10,  10,  10, -10],
    [-10,   5,   0,   0,   0,   0,   5, -10],
    [-20, -10, -10, -10, -10, -10, -10, -20]
  ]

  const WhiteRookEvaluation: PieceSquareTable := [
    [  0,   0,   0,   5,   5,   0,   0,   0],
    [ -5,   0,   0,   0,   0,   0,   0,  -5],
    [ -5,   0,   0,   0,   0,   0,   0,  -5],
    [ -5,   0,   0,   0,   0,   0,   0,  -5],
    [ -5,   0,   0,   0,   0,   0,   0,  -5],
    [ -5,   0,   0,   0,   0,   0,   0,  -5],
    [  5,  10,  10,  10,  10,  10,  10,   5],
    [  0,   0,   0,   0,   0,   0,   0,   0]
  ]

  const BlackRookEvaluation: PieceSquareTable := [
    [  0,   0,   0,   0,   0,   0,   0,   0],
    [  5,  10,  10,  10,  10,  10,  10,   5],
    [ -5,   0,   0,   0,   0,   0,   0,  -5],
    [ -5,   0,   0,   0,   0,   0,   0,  -5],
    [ -5,   0,   0,   0,   0,   0,   0,  -5],
    [ -5,   0,   0,   0,   0,   0,   0,  -5],
    [ -5,   0,   0,   0,   0,   0,   0,  -5],
    [  0,   0,   0,   5,   5,   0,   0,   0]
  ]

  const WhiteQueenEvaluation: PieceSquareTable := [
    [-20, -10, -10,  -5,  -5, -10, -10, -20],
    [-10,   0,   5,   0,   0,   0,   0, -10],
    [-10,   5,   5,   5,   5,   5,   0, -10],
    [  0,   0,   5,   5,   5,   5,   0,  -5],
    [ -5,   0,   5,   5,   5,   5,   0,  -5],
    [-10,   0,   5,   5,   5,   5,   0, -10],
    [-10,   0,   0,   0,   0,   0,   0, -10],
    [-20, -10, -10,  -5,  -5, -10, -10, -20]
  ]

  const BlackQueenEvaluation: PieceSquareTable := [
    [-20, -10, -10,  -5,  -5, -10, -10, -20],
    [-10,   0,   0,   0,   0,   0,   0, -10],
    [-10,   0,   5,   5,   5,   5,   0, -10],
    [ -5,   0,   5,   5,   5,   5,   0,  -5],
    [  0,   0,   5,   5,   5,   5,   0,  -5],
    [-10,   5,   5,   5,   5,   5,   0, -10],
    [-10,   0,   5,   0,   0,   0,   0, -10],
    [-20, -10, -10,  -5,  -5, -10, -10, -20]
  ]

  const WhiteKingEarlyEvaluation: PieceSquareTable := [
    [ 20,  30,  10,   0,   0,  10,  30,  20],
    [ 20,  20,   0,   0,   0,   0,  20,  20],
    [-10, -20, -20, -20, -20, -20, -20, -10],
    [-20, -30, -30, -40, -40, -30, -30, -20],
    [-30, -40, -40, -50, -50, -40, -40, -30],
    [-30, -40, -40, -50, -50, -40, -40, -30],
    [-30, -40, -40, -50, -50, -40, -40, -30],
    [-30, -40, -40, -50, -50, -40, -40, -30]
  ]

  const BlackKingEarlyEvaluation: PieceSquareTable := [
    [-30, -40, -40, -50, -50, -40, -40, -30],
    [-30, -40, -40, -50, -50, -40, -40, -30],
    [-30, -40, -40, -50, -50, -40, -40, -30],
    [-30, -40, -40, -50, -50, -40, -40, -30],
    [-20, -30, -30, -40, -40, -30, -30, -20],
    [-10, -20, -20, -20, -20, -20, -20, -10],
    [ 20,  20,   0,   0,   0,   0,  20,  20],
    [ 20,  30,  10,   0,   0,  10,  30,  20]
  ]

  const WhiteKingEndEvaluation: PieceSquareTable := [
    [-50, -30, -30, -30, -30, -30, -30, -50],
    [-30, -30,   0,   0,   0,   0, -30, -30],
    [-30, -10,  20,  30,  30,  20, -10, -30],
    [-30, -10,  30,  40,  40,  30, -10, -30],
    [-30, -10,  30,  40,  40,  30, -10, -30],
    [-30, -10,  20,  30,  30,  20, -10, -30],
    [-30, -20, -10,   0,   0, -10, -20, -30],
    [-50, -40, -30, -20, -20, -30, -40, -50]
  ]

  const BlackKingEndEvaluation: PieceSquareTable := [
    [-50, -40, -30, -20, -20, -30, -40, -50],
    [-30, -20, -10,   0,   0, -10, -20, -30],
    [-30, -10,  20,  30,  30,  20, -10, -30],
    [-30, -10,  30,  40,  40,  30, -10, -30],
    [-30, -10,  30,  40,  40,  30, -10, -30],
    [-30, -10,  20,  30,  30,  20, -10, -30],
    [-30, -30,   0,   0,   0,   0, -30, -30],
    [-50, -30, -30, -30, -30, -30, -30, -50]
  ]
  datatype TableKind = PawnTable | KnightTable | BishopTable | RookTable | QueenTable | KingEarlyTable | KingEndTable

  /** The material constant each *_value function starts from. */
  function BaseValue(k: TableKind): int
  {
    match k
    case PawnTable => 100
    case KnightTable => 320
    case BishopTable => 330
    case RookTable => 500
    case QueenTable => 900
    case KingEarlyTable => 20000
    case KingEndTable => 20000
  }

  /** The table a *_value function reads: chosen by the bot's colour only. */
  function SquareTable(k: TableKind, botColour: Player): PieceSquareTable
  {
    if botColour == Black then
      match k
      case PawnTable => BlackPawnEvaluation
      case KnightTable => BlackKnightEvaluation
      case BishopTable => BlackBishopEvaluation
      case RookTable => BlackRookEvaluation
      case QueenTable => BlackQueenEvaluation
      case KingEarlyTable => BlackKingEarlyEvaluation
      case KingEndTable => BlackKingEndEvaluation
    else
      match k
      case PawnTable => WhitePawnEvaluation
      case KnightTable => WhiteKnightEvaluation
      case BishopTable => WhiteBishopEvaluation
      case RookTable => WhiteRookEvaluation
      case QueenTable => WhiteQueenEvaluation
      case KingEarlyTable => WhiteKingEarlyEvaluation
      case KingEndTable => WhiteKingEndEvaluation
  }

  /** The largest magnitude one square can contribute: a king (20000) on a
      square whose bonus has magnitude 50. */
  const MaxSquareScore: int := 20050

  /** pawn_value, knight_value, bishop_value, rook_value, queen_value,
      king_early_value and king_end_value, which differ only in their constant
      and tables: a piece of the bot's colour adds, any other piece subtracts. */
  function PieceValue(k: TableKind, pieceColour: Player, botColour: Player, sq: int): (r: int)
    requires 0 <= sq < 64
    ensures pieceColour == botColour <==> r > 0
    ensures -MaxSquareScore <= r <= MaxSquareScore
  {
    var v := BaseValue(k) + Entry(SquareTable(k, botColour), sq);
    if pieceColour == botColour then v else -v
  }

  /** The same piece type of the two colours on the same square cancels out,
      because the table depends on the bot's colour and not the piece's. */
  lemma OppositeColoursCancel(k: TableKind, botColour: Player, sq: int)
    requires 0 <= sq < 64
    ensures PieceValue(k, White, botColour, sq) + PieceValue(k, Black, botColour, sq) == 0
  {
  }

  /** The traditional piece values used to decide the game phase. */
  function TraditionalValue(p: Option<Piece>): nat
  {
    match p
    case None => 0
    case Some(Piece(kind, _)) =>
      match kind
      case Pawn => 1
      case Knight => 3
      case Bishop => 3
      case Rook => 5
      case Queen => 9
      case King => 0
  }

  function MaterialTerms(squares: Squares): seq<int>
  {
    seq(64, i requires 0 <= i < 64 => TraditionalValue(squares[i]))
  }

  /** traditional_piece_value after the first loop. */
  function Material(squares: Squares): int
  {
    Sum(MaterialTerms(squares))
  }

  predicate IsEndgame(squares: Squares)
  {
    Material(squares) <= 30
  }

  /** The table a piece kind is scored with; the king's depends on the phase. */
  function TableFor(kind: Kind, endgame: bool): TableKind
  {
    match kind
    case Pawn => PawnTable
    case Knight => KnightTable
    case Bishop => BishopTable
    case Rook => RookTable
    case Queen => QueenTable
    case King => if endgame then KingEndTable else KingEarlyTable
  }

  /** What one square adds to evaluation in the second loop. */
  function SquareScore(p: Option<Piece>, sq: int, endgame: bool, botColour: Player): (r: int)
    requires 0 <= sq < 64
    ensures -MaxSquareScore <= r <= MaxSquareScore
  {
    match p
    case None => 0
    case Some(Piece(kind, colour)) => PieceValue(TableFor(kind, endgame), colour, botColour, sq)
  }

  function Contributions(squares: Squares, endgame: bool, botColour: Player): (c: seq<int>)
    ensures |c| == 64
  {
    seq(64, i requires 0 <= i < 64 => SquareScore(squares[i], i, endgame, botColour))
  }

  /** The score of a position that is neither checkmate nor stalemate. */
  function PositionalScore(squares: Squares, botColour: Player): (r: int)
    ensures -64 * MaxSquareScore <= r <= 64 * MaxSquareScore
  {
    var c := Contributions(squares, IsEndgame(squares), botColour);
    SumBounded(c, MaxSquareScore);
    Sum(c)
  }

  /** The value heuristic returns, as one expression. */
  function Evaluation(pos: Position, botColour: Player): I32
  {
    if pos.checkmate then
      if pos.turn == botColour then I32_MIN else I32_MAX
    else if pos.stalemate then
      0
    else
      PositionalScore(pos.squares, botColour)
  }

  /** heuristic: the two loops of the source, accumulating in i32 variables
      (so every partial sum is checked to stay in range). */
  method Heuristic(pos: Position, botColour: Player) returns (r: I32)
    ensures r == Evaluation(pos, botColour)
    ensures pos.checkmate ==> r == (if pos.turn == botColour then I32_MIN else I32_MAX)
    ensures !pos.checkmate && pos.stalemate ==> r == 0
    ensures !IsGameOver(pos) ==> -64 * MaxSquareScore <= r <= 64 * MaxSquareScore
  {
    if pos.checkmate {
      if pos.turn == botColour {
        return I32_MIN;
      } else {
        return I32_MAX;
      }
    }

    if pos.stalemate {
      return 0;
    }

    ghost var terms := MaterialTerms(pos.squares);
    var traditionalPieceValue: I32 := 0;
    for i := 0 to 64
      invariant traditionalPieceValue == Sum(terms[..i])
      invariant 0 <= traditionalPieceValue <= 9 * i
    {
      SumPrefixStep(terms, i);
      var value := 0;
      match pos.squares[i] {
        case Some(Piece(Pawn, _)) => value := 1;
        case Some(Piece(Knight, _)) => value := 3;
        case Some(Piece(Bishop, _)) => value := 3;
        case Some(Piece(Rook, _)) => value := 5;
        case Some(Piece(Queen, _)) => value := 9;
        case _ =>
      }
      assert value == terms[i];
      traditionalPieceValue := traditionalPieceValue + value;
    }
    assert terms[..64] == terms;

    var isEndgame := traditionalPieceValue <= 30;
    assert isEndgame == IsEndgame(pos.squares);

    ghost var contributions := Contributions(pos.squares, isEndgame, botColour);
    var evaluation: I32 := 0;
    for i := 0 to 64
      invariant evaluation == Sum(contributions[..i])
      invariant -i * MaxSquareScore <= evaluation <= i * MaxSquareScore
    {
      SumPrefixStep(contributions, i);
      var score := 0;
      match pos.squares[i] {
        case Some(Piece(Pawn, c)) => score := PieceValue(PawnTable, c, botColour, i);
        case Some(Piece(Knight, c)) => score := PieceValue(KnightTable, c, botColour, i);
        case Some(Piece(Bishop, c)) => score := PieceValue(BishopTable, c, botColour, i);
        case Some(Piece(Rook, c)) => score := PieceValue(RookTable, c, botColour, i);
        case Some(Piece(Queen, c)) => score := PieceValue(QueenTable, c, botColour, i);
        case Some(Piece(King, c)) =>
          if isEndgame {
            score := PieceValue(KingEndTable, c, botColour, i);
          } else {
            score := PieceValue(KingEarlyTable, c, botColour, i);
          }
        case None =>
      }
      assert score == contributions[i];
      evaluation := evaluation + score;
    }
    assert contributions[..64] == contributions;
    return evaluation;
  }

  // ----- colour-mirror symmetry -----

  /** The same file on the rank seen from the other side of the board. */
  function MirrorSquare(sq: int): (m: int)
    requires 0 <= sq < 64
    ensures 0 <= m < 64 && m / 8 == 7 - sq / 8 && m % 8 == sq % 8
  {
    8 * (7 - sq / 8) + sq % 8
  }

  function SwapColour(p: Option<Piece>): Option<Piece>
  {
    match p
    case None => None
    case Some(Piece(kind, colour)) => Some(Piece(kind, Opponent(colour)))
  }

  /** The colour-mirrored position: ranks reversed, colours of all pieces and
      of the side to move swapped; the game-over flags are those of the
      original, as the mirrored game is over exactly when the original is. */
  function MirrorPosition(pos: Position): Position
  {
    Position(seq(64, i requires 0 <= i < 64 => SwapColour(pos.squares[MirrorSquare(i)])),
             Opponent(pos.turn), pos.checkmate, pos.stalemate)
  }

  /** Every Black table is the rank mirror of the White table of that piece. */
  lemma TablesAreRankMirrors(k: TableKind)
    ensures forall r :: 0 <= r < 8 ==> SquareTable(k, Black)[r] == SquareTable(k, White)[7 - r]
  {
  }

  /** Reading a table for one colour on a square is reading the other colour's
      table on the mirrored square. */
  lemma TableMirror(k: TableKind, botColour: Player, sq: int)
    requires 0 <= sq < 64
    ensures Entry(SquareTable(k, botColour), sq) == Entry(SquareTable(k, Opponent(botColour)), MirrorSquare(sq))
  {
    TablesAreRankMirrors(k);
  }

  function MirrorSeq(s: seq<int>): (m: seq<int>)
    requires |s| == 64
    ensures |m| == 64
  {
    seq(64, i requires 0 <= i < 64 => s[MirrorSquare(i)])
  }

  function Rank(s: seq<int>, r: int): seq<int>
    requires |s| == 64 && 0 <= r < 8
  {
    s[8 * r .. 8 * r + 8]
  }

  lemma RankStep(s: seq<int>, r: int)
    requires |s| == 64 && 0 <= r < 8
    ensures Sum(s[..8 * r + 8]) == Sum(s[..8 * r]) + Sum(Rank(s, r))
  {
    assert s[..8 * r + 8] == s[..8 * r] + Rank(s, r);
    SumConcat(s[..8 * r], Rank(s, r));
  }

  /** A 64-term sum is the sum of its eight rank sums. */
  lemma SumByRanks(s: seq<int>)
    requires |s| == 64
    ensures Sum(s) == Sum(Rank(s, 0)) + Sum(Rank(s, 1)) + Sum(Rank(s, 2)) + Sum(Rank(s, 3))
                    + Sum(Rank(s, 4)) + Sum(Rank(s, 5)) + Sum(Rank(s, 6)) + Sum(Rank(s, 7))
  {
    assert s[..0] == [];
    RankStep(s, 0);
    RankStep(s, 1);
    RankStep(s, 2);
    RankStep(s, 3);
    RankStep(s, 4);
    RankStep(s, 5);
    RankStep(s, 6);
    RankStep(s, 7);
    assert s[..64] == s;
  }

  /** Reversing the ranks does not change a sum over the board. */
  lemma SumMirror(s: seq<int>)
    requires |s| == 64
    ensures Sum(MirrorSeq(s)) == Sum(s)
  {
    var m := MirrorSeq(s);
    RankOfMirror(s, 0);
    RankOfMirror(s, 1);
    RankOfMirror(s, 2);
    RankOfMirror(s, 3);
    RankOfMirror(s, 4);
    RankOfMirror(s, 5);
    RankOfMirror(s, 6);
    RankOfMirror(s, 7);
    SumByRanks(m);
    SumByRanks(s);
  }

  lemma RankOfMirror(s: seq<int>, r: int)
    requires |s| == 64 && 0 <= r < 8
    ensures Rank(MirrorSeq(s), r) == Rank(s, 7 - r)
  {
    var m := MirrorSeq(s);
    forall f | 0 <= f < 8
      ensures Rank(m, r)[f] == Rank(s, 7 - r)[f]
    {
      assert (8 * r + f) / 8 == r && (8 * r + f) % 8 == f;
      assert m[8 * r + f] == s[8 * (7 - r) + f];
    }
  }

  lemma MaterialMirror(pos: Position)
    ensures Material(MirrorPosition(pos).squares) == Material(pos.squares)
  {
    assert MaterialTerms(MirrorPosition(pos).squares) == MirrorSeq(MaterialTerms(pos.squares));
    SumMirror(MaterialTerms(pos.squares));
  }

  /** Scoring a position for one colour equals scoring its colour-mirrored
      position for the other colour; checkmate and stalemate agree too. */
  lemma ColourMirrorSymmetry(pos: Position, botColour: Player)
    ensures Evaluation(pos, botColour) == Evaluation(MirrorPosition(pos), Opponent(botColour))
  {
    var mp := MirrorPosition(pos);
    var other := Opponent(botColour);
    MaterialMirror(pos);
    var e := IsEndgame(pos.squares);
    var c := Contributions(pos.squares, e, botColour);
    var mc := Contributions(mp.squares, e, other);
    forall i | 0 <= i < 64
      ensures mc[i] == MirrorSeq(c)[i]
    {
      var j := MirrorSquare(i);
      match pos.squares[j]
      case None =>
      case Some(Piece(kind, colour)) =>
        TableMirror(TableFor(kind, e), other, i);
    }
    assert mc == MirrorSeq(c);
    SumMirror(c);
  }
}
