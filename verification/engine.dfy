/** src/bot/engine.rs: depth-limited minimax with fail-soft alpha-beta pruning
    over the mutable board, and the Engine that runs it from the root. */
module Engine {
  import opened Prelude
  import opened Chess
  import opened Types
  import Heuristics
  import MoveGeneration

  /** The starting values of maximising and minimising nodes. The source uses
      AsWritten(); Corrected() is the pair under which every child result
      replaces the starting value. */
  datatype Sentinels = Sentinels(worst: MoveGenerationData, best: MoveGenerationData)

  function AsWritten(): Sentinels
  {
    Sentinels(WorstEvaluation(), BestEvaluation())
  }

  function Corrected(): Sentinels
  {
    Sentinels(CorrectedWorstEvaluation(), CorrectedBestEvaluation())
  }

  /** The move a child is searched with: its own move at the root, the
      inherited one below. */
  function ChildMove(t: GameTree, i: nat, moveMade: BitMove, nodeHeight: int, rootHeight: int): BitMove
    requires i < |t.moves|
  {
    if nodeHeight == rootHeight then t.moves[i] else moveMade
  }

  /** What search returns for the position t and the window (alpha, beta). */
  function AlphaBeta(t: GameTree, bot: Player, moveMade: BitMove, nodeHeight: U8, rootHeight: U8,
                     alpha: I32, beta: I32, s: Sentinels): MoveGenerationData
    requires WellFormed(t)
    decreases t, 1, 0
  {
    if nodeHeight == 0 then
      MoveGenerationData(Heuristics.Evaluation(t.position, bot), 0, moveMade)
    else if t.moves == [] then
      MoveGenerationData(Heuristics.Evaluation(t.position, bot), nodeHeight, moveMade)
    else if bot == t.position.turn then
      MaxLoop(t, bot, moveMade, nodeHeight, rootHeight, alpha, beta, s, 0, s.worst)
    else
      MinLoop(t, bot, moveMade, nodeHeight, rootHeight, alpha, beta, s, 0, s.best)
  }

  /** The maximising loop from its i-th iteration on, with the current alpha
      and value: stop after a child that lifts the value above beta. */
  function MaxLoop(t: GameTree, bot: Player, moveMade: BitMove, nodeHeight: U8, rootHeight: U8,
                   alpha: I32, beta: I32, s: Sentinels, i: nat, value: MoveGenerationData): MoveGenerationData
    requires WellFormed(t) && nodeHeight > 0 && i <= |t.moves|
    decreases t, 0, |t.moves| - i
  {
    if i == |t.moves| then value
    else
      var v := Max(value, AlphaBeta(t.children[i], bot, ChildMove(t, i, moveMade, nodeHeight, rootHeight),
                                    nodeHeight - 1, rootHeight, alpha, beta, s));
      if v.evaluation > beta then v
      else MaxLoop(t, bot, moveMade, nodeHeight, rootHeight, MaxInt(alpha, v.evaluation), beta, s, i + 1, v)
  }

  /** The minimising loop from its i-th iteration on, with the current beta
      and value: stop after a child that drops the value below alpha. */
  function MinLoop(t: GameTree, bot: Player, moveMade: BitMove, nodeHeight: U8, rootHeight: U8,
                   alpha: I32, beta: I32, s: Sentinels, i: nat, value: MoveGenerationData): MoveGenerationData
    requires WellFormed(t) && nodeHeight > 0 && i <= |t.moves|
    decreases t, 0, |t.moves| - i
  {
    if i == |t.moves| then value
    else
      var v := Min(value, AlphaBeta(t.children[i], bot, ChildMove(t, i, moveMade, nodeHeight, rootHeight),
                                    nodeHeight - 1, rootHeight, alpha, beta, s));
      if v.evaluation < alpha then v
      else MinLoop(t, bot, moveMade, nodeHeight, rootHeight, alpha, MinInt(beta, v.evaluation), s, i + 1, v)
  }

  /** One iteration of the maximising loop, with the i-th child's result c. */
  lemma MaxLoopUnfold(t: GameTree, bot: Player, moveMade: BitMove, nodeHeight: U8, rootHeight: U8,
                      alpha: I32, beta: I32, s: Sentinels, i: nat, value: MoveGenerationData, c: MoveGenerationData)
    requires WellFormed(t) && nodeHeight > 0 && i < |t.moves|
    requires c == AlphaBeta(Child(t, t.moves[i]), bot, ChildMove(t, i, moveMade, nodeHeight, rootHeight),
                            nodeHeight - 1, rootHeight, alpha, beta, s)
    ensures Max(value, c).evaluation > beta ==>
              MaxLoop(t, bot, moveMade, nodeHeight, rootHeight, alpha, beta, s, i, value) == Max(value, c)
    ensures Max(value, c).evaluation <= beta ==>
              MaxLoop(t, bot, moveMade, nodeHeight, rootHeight, alpha, beta, s, i, value)
                == MaxLoop(t, bot, moveMade, nodeHeight, rootHeight, MaxInt(alpha, Max(value, c).evaluation), beta, s, i + 1, Max(value, c))
  {
    ChildAt(t, i);
  }

  /** One iteration of the minimising loop, with the i-th child's result c. */
  lemma MinLoopUnfold(t: GameTree, bot: Player, moveMade: BitMove, nodeHeight: U8, rootHeight: U8,
                      alpha: I32, beta: I32, s: Sentinels, i: nat, value: MoveGenerationData, c: MoveGenerationData)
    requires WellFormed(t) && nodeHeight > 0 && i < |t.moves|
    requires c == AlphaBeta(Child(t, t.moves[i]), bot, ChildMove(t, i, moveMade, nodeHeight, rootHeight),
                            nodeHeight - 1, rootHeight, alpha, beta, s)
    ensures Min(value, c).evaluation < alpha ==>
              MinLoop(t, bot, moveMade, nodeHeight, rootHeight, alpha, beta, s, i, value) == Min(value, c)
    ensures Min(value, c).evaluation >= alpha ==>
              MinLoop(t, bot, moveMade, nodeHeight, rootHeight, alpha, beta, s, i, value)
                == MinLoop(t, bot, moveMade, nodeHeight, rootHeight, alpha, MinInt(beta, Min(value, c).evaluation), s, i + 1, Min(value, c))
  {
    ChildAt(t, i);
  }

  class Engine {
    var board: Board
    var searchDepth: U8

    /** Engine::new: the fixed search depth is 4. */
    constructor (board: Board)
      ensures this.board == board && searchDepth == 4
    {
      this.board := board;
      searchDepth := 4;
    }

    /** best_move: nothing when the game is over; otherwise search a clone of
        the board from the full window, starting nodes from worst_evaluation
        and best_evaluation, and apply the move found to the clone. When the
        search reports the null move, uci_to_san unwraps an error before the
        move is applied: that run fails. Any other reported move is a legal
        root move leading to a position of the root's minimax value. The
        engine's own board is left untouched: nothing outside the clone is
        modified. */
    method BestMove() returns (r: Outcome<Option<Types.BestMove>>)
      requires board.Valid()
      ensures IsGameOver(board.node.position) <==> r == Returned(None)
      ensures !IsGameOver(board.node.position) ==>
                var m := AlphaBeta(board.node, board.node.position.turn, NullMove, searchDepth, searchDepth,
                                   I32_MIN, I32_MAX, AsWritten()).bitMove;
                && (m == NullMove <==> r == Failed)
                && (m != NullMove ==>
                      && m in board.node.moves
                      && r.Returned? && r.value.Some?
                      && r.value.value.uciMove == m
                      && r.value.value.resultingBoard != board
                      && r.value.value.resultingBoard.Valid()
                      && r.value.value.resultingBoard.node == Child(board.node, m)
                      && r.value.value.resultingBoard.history == board.history + [board.node]
                      && r.value.value.resultingBoard.applied == board.applied + [m]
                      && searchDepth > 0
                      && MoveGeneration.Value(Child(board.node, m), board.node.position.turn, searchDepth - 1, Heuristics.Evaluation)
                         == MoveGeneration.Value(board.node, board.node.position.turn, searchDepth, Heuristics.Evaluation))
    {
      if IsGameOver(board.Position()) {
        return Returned(None);
      }

      var currentBoard := board.Clone();
      var botColour := board.Turn();
      var nodeHeight := searchDepth;
      var rootHeight := searchDepth;
      var alpha := I32_MIN;
      var beta := I32_MAX;

      var moveGen := Search(currentBoard, botColour, NullMove, nodeHeight, rootHeight, alpha, beta, AsWritten());

      if moveGen.bitMove == NullMove {
        return Failed;
      }

      RootMoveIsOptimal(board.node, nodeHeight, AsWritten());
      currentBoard.ApplyMove(moveGen.bitMove);

      return Returned(Some(Types.BestMove(moveGen.bitMove, currentBoard)));
    }

    /** search, with the starting values of its nodes as the parameter s (the
        source starts from AsWritten()): a leaf is scored by the heuristic;
        otherwise the maximising loop when the bot is to move and the
        minimising loop otherwise. Every
        apply_move is matched by one undo_move, on the cutoff path as well, so
        the board is handed back as it was received. */
    method Search(board: Board, botColour: Player, moveMade: BitMove, nodeHeight: U8, rootHeight: U8,
                  alpha: I32, beta: I32, s: Sentinels) returns (r: MoveGenerationData)
      requires board.Valid()
      modifies board
      ensures board.Valid()
      ensures board.node == old(board.node) && board.history == old(board.history) && board.applied == old(board.applied)
      ensures r == AlphaBeta(old(board.node), botColour, moveMade, nodeHeight, rootHeight, alpha, beta, s)
      decreases nodeHeight, 1
    {
      if nodeHeight == 0 {
        var evaluation := Heuristics.Heuristic(board.Position(), botColour);
        return MoveGenerationData(evaluation, 0, moveMade);
      }

      var legalMoves := board.GenerateMoves();

      if |legalMoves| == 0 {
        var evaluation := Heuristics.Heuristic(board.Position(), botColour);
        return MoveGenerationData(evaluation, nodeHeight, moveMade);
      }

      if botColour == board.Turn() {
        r := SearchMax(board, botColour, moveMade, nodeHeight, rootHeight, alpha, beta, s);
      } else {
        r := SearchMin(board, botColour, moveMade, nodeHeight, rootHeight, alpha, beta, s);
      }
    }

    /** The maximising loop of search: start from s.worst, keep the
        std::cmp::max of the value and each child's result, stop once the
        value exceeds beta, and otherwise raise alpha to it. */
    method SearchMax(board: Board, botColour: Player, moveMade: BitMove, nodeHeight: U8, rootHeight: U8,
                     alpha: I32, beta: I32, s: Sentinels) returns (value: MoveGenerationData)
      requires board.Valid() && nodeHeight > 0 && board.node.moves != []
      modifies board
      ensures board.Valid()
      ensures board.node == old(board.node) && board.history == old(board.history) && board.applied == old(board.applied)
      ensures value == MaxLoop(old(board.node), botColour, moveMade, nodeHeight, rootHeight, alpha, beta, s, 0, s.worst)
      decreases nodeHeight, 0
    {
      var legalMoves := board.GenerateMoves();
      ghost var t := board.node;
      value := s.worst;
      var windowAlpha: I32 := alpha;

      for i := 0 to |legalMoves|
        invariant board.Valid()
        invariant board.node == t && board.history == old(board.history) && board.applied == old(board.applied)
        invariant MaxLoop(t, botColour, moveMade, nodeHeight, rootHeight, alpha, beta, s, 0, s.worst)
               == MaxLoop(t, botColour, moveMade, nodeHeight, rootHeight, windowAlpha, beta, s, i, value)
      {
        var mv := legalMoves[i];
        ghost var next := Child(t, mv);
        board.ApplyMove(mv);

        var childMove := if nodeHeight == rootHeight then mv else moveMade;

        var child := Search(board, botColour, childMove, nodeHeight - 1, rootHeight, windowAlpha, beta, s);
        assert child == AlphaBeta(next, botColour, childMove, nodeHeight - 1, rootHeight, windowAlpha, beta, s);
        MaxLoopUnfold(t, botColour, moveMade, nodeHeight, rootHeight, windowAlpha, beta, s, i, value, child);
        value := Max(value, child);

        if value.evaluation > beta {
          board.UndoMove();
          break;
        }

        windowAlpha := MaxInt(windowAlpha, value.evaluation);

        board.UndoMove();
      }
    }

    /** The minimising loop of search, dual to SearchMax: start from
        s.best, keep the std::cmp::min, stop once the value drops
        below alpha, and otherwise lower beta to it. */
    method SearchMin(board: Board, botColour: Player, moveMade: BitMove, nodeHeight: U8, rootHeight: U8,
                     alpha: I32, beta: I32, s: Sentinels) returns (value: MoveGenerationData)
      requires board.Valid() && nodeHeight > 0 && board.node.moves != []
      modifies board
      ensures board.Valid()
      ensures board.node == old(board.node) && board.history == old(board.history) && board.applied == old(board.applied)
      ensures value == MinLoop(old(board.node), botColour, moveMade, nodeHeight, rootHeight, alpha, beta, s, 0, s.best)
      decreases nodeHeight, 0
    {
      var legalMoves := board.GenerateMoves();
      ghost var t := board.node;
      value := s.best;
      var windowBeta: I32 := beta;

      for i := 0 to |legalMoves|
        invariant board.Valid()
        invariant board.node == t && board.history == old(board.history) && board.applied == old(board.applied)
        invariant MinLoop(t, botColour, moveMade, nodeHeight, rootHeight, alpha, beta, s, 0, s.best)
               == MinLoop(t, botColour, moveMade, nodeHeight, rootHeight, alpha, windowBeta, s, i, value)
      {
        var mv := legalMoves[i];
        ghost var next := Child(t, mv);
        board.ApplyMove(mv);

        var childMove := if nodeHeight == rootHeight then mv else moveMade;

        var child := Search(board, botColour, childMove, nodeHeight - 1, rootHeight, alpha, windowBeta, s);
        assert child == AlphaBeta(next, botColour, childMove, nodeHeight - 1, rootHeight, alpha, windowBeta, s);
        MinLoopUnfold(t, botColour, moveMade, nodeHeight, rootHeight, alpha, windowBeta, s, i, value, child);
        value := Min(value, child);

        if value.evaluation < alpha {
          board.UndoMove();
          break;
        }

        windowBeta := MinInt(windowBeta, value.evaluation);

        board.UndoMove();
      }
    }
  }

  // ----- pruning is sound -----

  /** What a fail-soft search with window (alpha, beta) promises about its
      result r and the true value v: a result below alpha bounds v from above,
      one above beta bounds it from below, and one inside the window is exact. */
  ghost predicate InWindow(r: int, v: int, alpha: int, beta: int)
  {
    && (r < alpha ==> v <= r)
    && (r > beta ==> v >= r)
    && (alpha <= r <= beta ==> v == r)
  }

  ghost predicate SentinelScores(s: Sentinels)
  {
    s.worst.evaluation == I32_MIN && s.best.evaluation == I32_MAX
  }

  lemma {:induction false} AlphaBetaWindow(t: GameTree, bot: Player, moveMade: BitMove, nodeHeight: U8, rootHeight: U8,
                                           alpha: I32, beta: I32, s: Sentinels)
    requires WellFormed(t) && alpha <= beta && SentinelScores(s)
    ensures InWindow(AlphaBeta(t, bot, moveMade, nodeHeight, rootHeight, alpha, beta, s).evaluation,
                     MoveGeneration.Value(t, bot, nodeHeight, Heuristics.Evaluation), alpha, beta)
    decreases t, 1, 0
  {
    if nodeHeight > 0 && t.moves != [] {
      if bot == t.position.turn {
        MaxLoopWindow(t, bot, moveMade, nodeHeight, rootHeight, alpha, alpha, beta, s, 0, s.worst);
      } else {
        MinLoopWindow(t, bot, moveMade, nodeHeight, rootHeight, alpha, beta, beta, s, 0, s.best);
      }
    }
  }

  /** The maximising loop, entered with the original alpha0 raised to alpha by
      the value w of the first i children, keeps the window promise for the
      greatest child value. */
  lemma {:induction false} MaxLoopWindow(t: GameTree, bot: Player, moveMade: BitMove, nodeHeight: U8, rootHeight: U8,
                                         alpha0: I32, alpha: I32, beta: I32, s: Sentinels, i: nat, w: MoveGenerationData)
    requires WellFormed(t) && nodeHeight > 0 && t.moves != [] && i <= |t.moves| && SentinelScores(s)
    requires alpha0 <= beta && w.evaluation <= beta && alpha == MaxInt(alpha0, w.evaluation)
    requires i == 0 ==> w.evaluation == I32_MIN
    requires i > 0 ==> MoveGeneration.MaxValue(t, bot, nodeHeight, Heuristics.Evaluation, i) <= w.evaluation
    requires i > 0 && w.evaluation >= alpha0 ==> MoveGeneration.MaxValue(t, bot, nodeHeight, Heuristics.Evaluation, i) >= w.evaluation
    ensures InWindow(MaxLoop(t, bot, moveMade, nodeHeight, rootHeight, alpha, beta, s, i, w).evaluation,
                     MoveGeneration.MaxValue(t, bot, nodeHeight, Heuristics.Evaluation, |t.children|), alpha0, beta)
    decreases t, 0, |t.moves| - i
  {
    if i < |t.moves| {
      var childMove := ChildMove(t, i, moveMade, nodeHeight, rootHeight);
      var c := AlphaBeta(t.children[i], bot, childMove, nodeHeight - 1, rootHeight, alpha, beta, s);
      AlphaBetaWindow(t.children[i], bot, childMove, nodeHeight - 1, rootHeight, alpha, beta, s);
      var v := Max(w, c);
      if v.evaluation > beta {
        MoveGeneration.MaxValueBounds(t, bot, nodeHeight, Heuristics.Evaluation, |t.children|, i);
      } else {
        MaxLoopWindow(t, bot, moveMade, nodeHeight, rootHeight, alpha0, MaxInt(alpha, v.evaluation), beta, s, i + 1, v);
      }
    }
  }

  /** The minimising loop, dual to MaxLoopWindow. */
  lemma {:induction false} MinLoopWindow(t: GameTree, bot: Player, moveMade: BitMove, nodeHeight: U8, rootHeight: U8,
                                         alpha: I32, beta0: I32, beta: I32, s: Sentinels, i: nat, w: MoveGenerationData)
    requires WellFormed(t) && nodeHeight > 0 && t.moves != [] && i <= |t.moves| && SentinelScores(s)
    requires alpha <= beta0 && alpha <= w.evaluation && beta == MinInt(beta0, w.evaluation)
    requires i == 0 ==> w.evaluation == I32_MAX
    requires i > 0 ==> MoveGeneration.MinValue(t, bot, nodeHeight, Heuristics.Evaluation, i) >= w.evaluation
    requires i > 0 && w.evaluation <= beta0 ==> MoveGeneration.MinValue(t, bot, nodeHeight, Heuristics.Evaluation, i) <= w.evaluation
    ensures InWindow(MinLoop(t, bot, moveMade, nodeHeight, rootHeight, alpha, beta, s, i, w).evaluation,
                     MoveGeneration.MinValue(t, bot, nodeHeight, Heuristics.Evaluation, |t.children|), alpha, beta0)
    decreases t, 0, |t.moves| - i
  {
    if i < |t.moves| {
      var childMove := ChildMove(t, i, moveMade, nodeHeight, rootHeight);
      var c := AlphaBeta(t.children[i], bot, childMove, nodeHeight - 1, rootHeight, alpha, beta, s);
      AlphaBetaWindow(t.children[i], bot, childMove, nodeHeight - 1, rootHeight, alpha, beta, s);
      var v := Min(w, c);
      if v.evaluation < alpha {
        MoveGeneration.MinValueBounds(t, bot, nodeHeight, Heuristics.Evaluation, |t.children|, i);
      } else {
        MinLoopWindow(t, bot, moveMade, nodeHeight, rootHeight, alpha, beta0, MinInt(beta, v.evaluation), s, i + 1, v);
      }
    }
  }

  /** From the full window the pruned search finds exactly the minimax value,
      which is also what the exhaustive generate_tree finds with the same leaf
      scores. This holds for both sentinel pairs; only the move and height of
      the result can differ. */
  lemma PruningIsSound(t: GameTree, bot: Player, moveMade: BitMove, nodeHeight: U8, rootHeight: U8, s: Sentinels)
    requires WellFormed(t) && SentinelScores(s)
    ensures AlphaBeta(t, bot, moveMade, nodeHeight, rootHeight, I32_MIN, I32_MAX, s).evaluation
         == MoveGeneration.Value(t, bot, nodeHeight, Heuristics.Evaluation)
    ensures AlphaBeta(t, bot, moveMade, nodeHeight, rootHeight, I32_MIN, I32_MAX, s).evaluation
         == MoveGeneration.Tree(t, bot, moveMade, nodeHeight, rootHeight, Heuristics.Evaluation).evaluation
  {
    AlphaBetaWindow(t, bot, moveMade, nodeHeight, rootHeight, I32_MIN, I32_MAX, s);
    MoveGeneration.TreeEvaluatesToValue(t, bot, moveMade, nodeHeight, rootHeight, Heuristics.Evaluation);
  }

  // ----- the move of the result -----

  /** A move the search may report at a node: the null move of a sentinel, a
      legal move at the root, the inherited move below. */
  ghost predicate ReportableMove(t: GameTree, moveMade: BitMove, nodeHeight: int, rootHeight: int, m: BitMove)
  {
    m == NullMove || (if nodeHeight == rootHeight then m in t.moves else m == moveMade)
  }

  /** The reported move is a legal root move or the null move; below the root
      it is the inherited move or the null move. */
  lemma {:induction false} AlphaBetaMoveIsRootMoveOrNull(t: GameTree, bot: Player, moveMade: BitMove, nodeHeight: U8, rootHeight: U8,
                                                         alpha: I32, beta: I32, s: Sentinels)
    requires WellFormed(t) && nodeHeight <= rootHeight && s.worst.bitMove == NullMove && s.best.bitMove == NullMove
    ensures nodeHeight < rootHeight ==>
              AlphaBeta(t, bot, moveMade, nodeHeight, rootHeight, alpha, beta, s).bitMove in {moveMade, NullMove}
    ensures nodeHeight == rootHeight && nodeHeight > 0 && t.moves != [] ==>
              AlphaBeta(t, bot, moveMade, nodeHeight, rootHeight, alpha, beta, s).bitMove in t.moves + [NullMove]
    decreases t, 1, 0
  {
    if nodeHeight > 0 && t.moves != [] {
      if bot == t.position.turn {
        MaxLoopMove(t, bot, moveMade, nodeHeight, rootHeight, alpha, beta, s, 0, s.worst);
      } else {
        MinLoopMove(t, bot, moveMade, nodeHeight, rootHeight, alpha, beta, s, 0, s.best);
      }
    }
  }

  lemma {:induction false} MaxLoopMove(t: GameTree, bot: Player, moveMade: BitMove, nodeHeight: U8, rootHeight: U8,
                                       alpha: I32, beta: I32, s: Sentinels, i: nat, w: MoveGenerationData)
    requires WellFormed(t) && 0 < nodeHeight <= rootHeight && i <= |t.moves|
    requires s.worst.bitMove == NullMove && s.best.bitMove == NullMove
    requires ReportableMove(t, moveMade, nodeHeight, rootHeight, w.bitMove)
    ensures ReportableMove(t, moveMade, nodeHeight, rootHeight, MaxLoop(t, bot, moveMade, nodeHeight, rootHeight, alpha, beta, s, i, w).bitMove)
    decreases t, 0, |t.moves| - i
  {
    if i < |t.moves| {
      var childMove := ChildMove(t, i, moveMade, nodeHeight, rootHeight);
      AlphaBetaMoveIsRootMoveOrNull(t.children[i], bot, childMove, nodeHeight - 1, rootHeight, alpha, beta, s);
      var v := Max(w, AlphaBeta(t.children[i], bot, childMove, nodeHeight - 1, rootHeight, alpha, beta, s));
      if v.evaluation <= beta {
        MaxLoopMove(t, bot, moveMade, nodeHeight, rootHeight, MaxInt(alpha, v.evaluation), beta, s, i + 1, v);
      }
    }
  }

  lemma {:induction false} MinLoopMove(t: GameTree, bot: Player, moveMade: BitMove, nodeHeight: U8, rootHeight: U8,
                                       alpha: I32, beta: I32, s: Sentinels, i: nat, w: MoveGenerationData)
    requires WellFormed(t) && 0 < nodeHeight <= rootHeight && i <= |t.moves|
    requires s.worst.bitMove == NullMove && s.best.bitMove == NullMove
    requires ReportableMove(t, moveMade, nodeHeight, rootHeight, w.bitMove)
    ensures ReportableMove(t, moveMade, nodeHeight, rootHeight, MinLoop(t, bot, moveMade, nodeHeight, rootHeight, alpha, beta, s, i, w).bitMove)
    decreases t, 0, |t.moves| - i
  {
    if i < |t.moves| {
      var childMove := ChildMove(t, i, moveMade, nodeHeight, rootHeight);
      AlphaBetaMoveIsRootMoveOrNull(t.children[i], bot, childMove, nodeHeight - 1, rootHeight, alpha, beta, s);
      var v := Min(w, AlphaBeta(t.children[i], bot, childMove, nodeHeight - 1, rootHeight, alpha, beta, s));
      if v.evaluation >= alpha {
        MinLoopMove(t, bot, moveMade, nodeHeight, rootHeight, alpha, MinInt(beta, v.evaluation), s, i + 1, v);
      }
    }
  }

  // ----- the reported move is a best move -----

  /** The maximising root loop, searched from the full window: whenever the
      value it holds carries a real move, that move is legal and the position
      it leads to has exactly the value's evaluation as its minimax value. */
  lemma {:induction false} RootLoopMoveValue(t: GameTree, bot: Player, depth: U8, alpha: I32, s: Sentinels,
                                             i: nat, w: MoveGenerationData)
    requires WellFormed(t) && depth > 0 && i <= |t.moves| && SentinelScores(s)
    requires s.worst.bitMove == NullMove && s.best.bitMove == NullMove
    requires alpha == w.evaluation
    requires w.bitMove != NullMove ==>
               && w.bitMove in t.moves
               && MoveGeneration.Value(Child(t, w.bitMove), bot, depth - 1, Heuristics.Evaluation) == w.evaluation
    ensures var r := MaxLoop(t, bot, NullMove, depth, depth, alpha, I32_MAX, s, i, w);
            r.bitMove != NullMove ==>
              && r.bitMove in t.moves
              && MoveGeneration.Value(Child(t, r.bitMove), bot, depth - 1, Heuristics.Evaluation) == r.evaluation
    decreases |t.moves| - i
  {
    if i < |t.moves| {
      var c := AlphaBeta(t.children[i], bot, t.moves[i], depth - 1, depth, alpha, I32_MAX, s);
      AlphaBetaWindow(t.children[i], bot, t.moves[i], depth - 1, depth, alpha, I32_MAX, s);
      AlphaBetaMoveIsRootMoveOrNull(t.children[i], bot, t.moves[i], depth - 1, depth, alpha, I32_MAX, s);
      ChildAt(t, i);
      var v := Max(w, c);
      assert v == c && c.bitMove != NullMove ==>
               MoveGeneration.Value(Child(t, c.bitMove), bot, depth - 1, Heuristics.Evaluation) == c.evaluation;
      RootLoopMoveValue(t, bot, depth, MaxInt(alpha, v.evaluation), s, i + 1, v);
    }
  }

  /** The move best_move reports, when it is not the null move, leads to a
      position whose minimax value one level shallower is the root's minimax
      value: it is a best move for the side to move. */
  lemma RootMoveIsOptimal(t: GameTree, depth: U8, s: Sentinels)
    requires WellFormed(t) && depth > 0 && t.moves != [] && SentinelScores(s)
    requires s.worst.bitMove == NullMove && s.best.bitMove == NullMove
    ensures var r := AlphaBeta(t, t.position.turn, NullMove, depth, depth, I32_MIN, I32_MAX, s);
            r.bitMove != NullMove ==>
              && r.bitMove in t.moves
              && MoveGeneration.Value(Child(t, r.bitMove), t.position.turn, depth - 1, Heuristics.Evaluation)
                 == MoveGeneration.Value(t, t.position.turn, depth, Heuristics.Evaluation)
  {
    RootLoopMoveValue(t, t.position.turn, depth, I32_MIN, s, 0, s.worst);
    PruningIsSound(t, t.position.turn, NullMove, depth, depth, s);
  }

  // ----- the corrected sentinels -----

  /** The move a result carries under the corrected sentinels: a legal move at
      the root, the inherited move below. */
  ghost predicate CarriesMove(t: GameTree, moveMade: BitMove, nodeHeight: int, rootHeight: int, m: BitMove)
  {
    if nodeHeight == rootHeight then m in t.moves else m == moveMade
  }

  /** With the corrected sentinels no starting value survives a loop that
      visited a child, so the result always carries a real move and a height
      no greater than the node's. */
  lemma {:induction false} CorrectedSearchKeepsMove(t: GameTree, bot: Player, moveMade: BitMove, nodeHeight: U8, rootHeight: U8,
                                                    alpha: I32, beta: I32)
    requires WellFormed(t) && nodeHeight <= rootHeight
    ensures AlphaBeta(t, bot, moveMade, nodeHeight, rootHeight, alpha, beta, Corrected()).height <= nodeHeight
    ensures nodeHeight < rootHeight || nodeHeight == 0 || t.moves == [] ==>
              AlphaBeta(t, bot, moveMade, nodeHeight, rootHeight, alpha, beta, Corrected()).bitMove == moveMade
    ensures nodeHeight == rootHeight && nodeHeight > 0 && t.moves != [] ==>
              AlphaBeta(t, bot, moveMade, nodeHeight, rootHeight, alpha, beta, Corrected()).bitMove in t.moves
    decreases t, 1, 0
  {
    if nodeHeight > 0 && t.moves != [] {
      if bot == t.position.turn {
        CorrectedMaxLoop(t, bot, moveMade, nodeHeight, rootHeight, alpha, beta, 0, CorrectedWorstEvaluation());
      } else {
        CorrectedMinLoop(t, bot, moveMade, nodeHeight, rootHeight, alpha, beta, 0, CorrectedBestEvaluation());
      }
    }
  }

  lemma {:induction false} CorrectedMaxLoop(t: GameTree, bot: Player, moveMade: BitMove, nodeHeight: U8, rootHeight: U8,
                                            alpha: I32, beta: I32, i: nat, w: MoveGenerationData)
    requires WellFormed(t) && 0 < nodeHeight <= rootHeight && i <= |t.moves| && t.moves != []
    requires i == 0 ==> w == CorrectedWorstEvaluation()
    requires i > 0 ==> w.height < nodeHeight && CarriesMove(t, moveMade, nodeHeight, rootHeight, w.bitMove)
    ensures var r := MaxLoop(t, bot, moveMade, nodeHeight, rootHeight, alpha, beta, Corrected(), i, w);
            r.height < nodeHeight && CarriesMove(t, moveMade, nodeHeight, rootHeight, r.bitMove)
    decreases t, 0, |t.moves| - i
  {
    if i < |t.moves| {
      var childMove := ChildMove(t, i, moveMade, nodeHeight, rootHeight);
      var c := AlphaBeta(t.children[i], bot, childMove, nodeHeight - 1, rootHeight, alpha, beta, Corrected());
      CorrectedSearchKeepsMove(t.children[i], bot, childMove, nodeHeight - 1, rootHeight, alpha, beta);
      if i == 0 {
        CorrectedWorstIsLeast(c);
      }
      var v := Max(w, c);
      if v.evaluation <= beta {
        CorrectedMaxLoop(t, bot, moveMade, nodeHeight, rootHeight, MaxInt(alpha, v.evaluation), beta, i + 1, v);
      }
    }
  }

  lemma {:induction false} CorrectedMinLoop(t: GameTree, bot: Player, moveMade: BitMove, nodeHeight: U8, rootHeight: U8,
                                            alpha: I32, beta: I32, i: nat, w: MoveGenerationData)
    requires WellFormed(t) && 0 < nodeHeight <= rootHeight && i <= |t.moves| && t.moves != []
    requires i == 0 ==> w == CorrectedBestEvaluation()
    requires i > 0 ==> w.height < nodeHeight && CarriesMove(t, moveMade, nodeHeight, rootHeight, w.bitMove)
    ensures var r := MinLoop(t, bot, moveMade, nodeHeight, rootHeight, alpha, beta, Corrected(), i, w);
            r.height < nodeHeight && CarriesMove(t, moveMade, nodeHeight, rootHeight, r.bitMove)
    decreases t, 0, |t.moves| - i
  {
    if i < |t.moves| {
      var childMove := ChildMove(t, i, moveMade, nodeHeight, rootHeight);
      var c := AlphaBeta(t.children[i], bot, childMove, nodeHeight - 1, rootHeight, alpha, beta, Corrected());
      CorrectedSearchKeepsMove(t.children[i], bot, childMove, nodeHeight - 1, rootHeight, alpha, beta);
      if i == 0 {
        CorrectedBestIsGreatest(c);
      }
      var v := Min(w, c);
      if v.evaluation >= alpha {
        CorrectedMinLoop(t, bot, moveMade, nodeHeight, rootHeight, alpha, MinInt(beta, v.evaluation), i + 1, v);
      }
    }
  }

  /** With the corrected sentinels the root search from a position with a legal
      move always reports a legal move, and still finds the minimax value. */
  lemma CorrectedRootMoveIsLegal(t: GameTree, bot: Player, depth: U8)
    requires WellFormed(t) && depth > 0 && t.moves != []
    ensures AlphaBeta(t, bot, NullMove, depth, depth, I32_MIN, I32_MAX, Corrected()).bitMove in t.moves
    ensures AlphaBeta(t, bot, NullMove, depth, depth, I32_MIN, I32_MAX, Corrected()).evaluation
         == MoveGeneration.Value(t, bot, depth, Heuristics.Evaluation)
  {
    CorrectedSearchKeepsMove(t, bot, NullMove, depth, depth, I32_MIN, I32_MAX);
    PruningIsSound(t, bot, NullMove, depth, depth, Corrected());
  }

  // ----- two games in which the written sentinels win -----

  function EmptyPosition(turn: Player, checkmate: bool): Position
  {
    Position(seq(64, _ => None), turn, checkmate, false)
  }

  /** White to move mates in two: White plays 1, Black's only reply is 2, and
      White's 3 is checkmate. */
  function MateInTwo(): GameTree
  {
    Node(EmptyPosition(White, false), [Move(1)], [
      Node(EmptyPosition(Black, false), [Move(2)], [
        Node(EmptyPosition(White, false), [Move(3)], [
          Node(EmptyPosition(Black, true), [], [])])])])
  }

  /** Searching the mate in two at depth 4 for White finds the winning score
      but reports the null move: the minimising node keeps best_evaluation,
      which ties the mate on score and wins on height. The corrected sentinels
      report the winning move. */
  lemma MateInTwoYieldsNullMove()
    ensures WellFormed(MateInTwo())
    ensures AlphaBeta(MateInTwo(), White, NullMove, 4, 4, I32_MIN, I32_MAX, AsWritten())
         == MoveGenerationData(I32_MAX, 0, NullMove)
    ensures AlphaBeta(MateInTwo(), White, NullMove, 4, 4, I32_MIN, I32_MAX, Corrected()).bitMove == Move(1)
  {
    var n3 := Node(EmptyPosition(Black, true), [], []);
    var n2 := Node(EmptyPosition(White, false), [Move(3)], [n3]);
    var n1 := Node(EmptyPosition(Black, false), [Move(2)], [n2]);
    assert WellFormed(n3);
    assert WellFormed(n2);
    assert WellFormed(n1);
    assert WellFormed(MateInTwo());
    var mate := MoveGenerationData(I32_MAX, 1, Move(1));
    assert AlphaBeta(n3, White, Move(1), 1, 4, I32_MIN, I32_MAX, AsWritten()) == mate;
    assert AlphaBeta(n2, White, Move(1), 2, 4, I32_MIN, I32_MAX, AsWritten()) == mate;
    assert AlphaBeta(n1, White, Move(1), 3, 4, I32_MIN, I32_MAX, AsWritten()) == BestEvaluation();
    assert AlphaBeta(n3, White, Move(1), 1, 4, I32_MIN, I32_MAX, Corrected()) == mate;
    assert AlphaBeta(n2, White, Move(1), 2, 4, I32_MIN, I32_MAX, Corrected()) == mate;
    assert AlphaBeta(n1, White, Move(1), 3, 4, I32_MIN, I32_MAX, Corrected()) == mate;
  }

  /** best_move on an engine holding the mate in two fails: the search reports
      the null move, which uci_to_san cannot render. */
  method MateInTwoBestMove() returns (r: Outcome<Option<Types.BestMove>>)
    ensures r == Failed
  {
    MateInTwoYieldsNullMove();
    var board := new Board(MateInTwo());
    var engine := new Engine(board);
    r := engine.BestMove();
  }

  /** White to move, whose only move 1 lets Black mate with 2. */
  function ForcedLoss(): GameTree
  {
    Node(EmptyPosition(White, false), [Move(1)], [
      Node(EmptyPosition(Black, false), [Move(2)], [
        Node(EmptyPosition(White, true), [], [])])])
  }

  /** Searching the forced loss at depth 4 for White reports the null move:
      the maximising root keeps worst_evaluation, which ties the loss on score
      and wins on height. The corrected sentinels report the only move. */
  lemma ForcedLossYieldsNullMove()
    ensures WellFormed(ForcedLoss())
    ensures AlphaBeta(ForcedLoss(), White, NullMove, 4, 4, I32_MIN, I32_MAX, AsWritten()) == WorstEvaluation()
    ensures AlphaBeta(ForcedLoss(), White, NullMove, 4, 4, I32_MIN, I32_MAX, Corrected()).bitMove == Move(1)
  {
    var n2 := Node(EmptyPosition(White, true), [], []);
    var n1 := Node(EmptyPosition(Black, false), [Move(2)], [n2]);
    assert WellFormed(n2);
    assert WellFormed(n1);
    assert WellFormed(ForcedLoss());
    var loss := MoveGenerationData(I32_MIN, 2, Move(1));
    assert AlphaBeta(n2, White, Move(1), 2, 4, I32_MIN, I32_MAX, AsWritten()) == loss;
    assert AlphaBeta(n1, White, Move(1), 3, 4, I32_MIN, I32_MAX, AsWritten()) == loss;
    assert AlphaBeta(n2, White, Move(1), 2, 4, I32_MIN, I32_MAX, Corrected()) == loss;
    assert AlphaBeta(n1, White, Move(1), 3, 4, I32_MIN, I32_MAX, Corrected()) == loss;
  }
}
