/** src/bot/move_generation.rs: the exhaustive depth-limited minimax that
    collects one result per legal move and passes up the greatest (bot to move)
    or the least, together with the reference minimax value it computes. */
module MoveGeneration {
  import opened Prelude
  import opened Chess
  import opened BotTypes

  /** The leaf evaluator (piece_count_heuristic, which is not part of this
      model): any total function of the position and the bot's colour. */
  type Leaf = (Position, Player) -> I32

  // ----- Iterator::max and Iterator::min -----

  /** Iterator::max: a left fold of std::cmp::max, so the last of the greatest
      elements (IterMaxIsGreatest, IterMaxPicksLast); None exactly when the
      sequence is empty. */
  function IterMax(s: seq<MoveGenerationData>): (r: Option<MoveGenerationData>)
    ensures r == None <==> s == []
  {
    if s == [] then None
    else
      match IterMax(s[..|s| - 1])
      case None => Some(s[|s| - 1])
      case Some(m) => Some(Max(m, s[|s| - 1]))
  }

  /** Iterator::min: a left fold of std::cmp::min, so the first of the least
      elements (IterMinIsLeast, IterMinPicksFirst); None exactly when the
      sequence is empty. */
  function IterMin(s: seq<MoveGenerationData>): (r: Option<MoveGenerationData>)
    ensures r == None <==> s == []
  {
    if s == [] then None
    else
      match IterMin(s[..|s| - 1])
      case None => Some(s[|s| - 1])
      case Some(m) => Some(Min(m, s[|s| - 1]))
  }

  lemma {:induction false} IterMaxIsGreatest(s: seq<MoveGenerationData>)
    requires s != []
    ensures forall j :: 0 <= j < |s| ==> Cmp(s[j], IterMax(s).value) != Greater
  {
    var init, last := s[..|s| - 1], s[|s| - 1];
    if init != [] {
      IterMaxIsGreatest(init);
      var m := IterMax(init).value;
      forall j | 0 <= j < |s|
        ensures Cmp(s[j], IterMax(s).value) != Greater
      {
        if j < |init| {
          assert s[j] == init[j];
          CmpTransitive(s[j], m, Max(m, last));
        }
      }
    }
  }

  /** The element Iterator::max returns sits at an index after which every
      element is strictly smaller: the last of the greatest. */
  lemma {:induction false} IterMaxPicksLast(s: seq<MoveGenerationData>) returns (k: nat)
    requires s != []
    ensures k < |s| && s[k] == IterMax(s).value
    ensures forall j :: k < j < |s| ==> Cmp(s[j], s[k]) == Less
  {
    var init, last := s[..|s| - 1], s[|s| - 1];
    if init == [] {
      k := 0;
    } else {
      var k' := IterMaxPicksLast(init);
      var m := IterMax(init).value;
      if Cmp(m, last) == Greater {
        k := k';
        forall j | k < j < |s|
          ensures Cmp(s[j], s[k]) == Less
        {
          if j < |init| {
            assert s[j] == init[j];
          }
        }
      } else {
        k := |s| - 1;
      }
    }
  }

  lemma {:induction false} IterMinIsLeast(s: seq<MoveGenerationData>)
    requires s != []
    ensures forall j :: 0 <= j < |s| ==> Cmp(s[j], IterMin(s).value) != Less
  {
    var init, last := s[..|s| - 1], s[|s| - 1];
    if init != [] {
      IterMinIsLeast(init);
      var m := IterMin(init).value;
      forall j | 0 <= j < |s|
        ensures Cmp(s[j], IterMin(s).value) != Less
      {
        if j < |init| {
          assert s[j] == init[j];
          CmpTransitive(Min(m, last), m, s[j]);
        }
      }
    }
  }

  /** The element Iterator::min returns sits at an index before which every
      element is strictly greater: the first of the least. */
  lemma {:induction false} IterMinPicksFirst(s: seq<MoveGenerationData>) returns (k: nat)
    requires s != []
    ensures k < |s| && s[k] == IterMin(s).value
    ensures forall j :: 0 <= j < k ==> Cmp(s[j], s[k]) == Greater
  {
    var init, last := s[..|s| - 1], s[|s| - 1];
    if init == [] {
      k := 0;
    } else {
      var k' := IterMinPicksFirst(init);
      var m := IterMin(init).value;
      if Cmp(m, last) == Greater {
        k := |s| - 1;
        IterMinIsLeast(init);
        forall j | 0 <= j < k
          ensures Cmp(s[j], s[k]) == Greater
        {
          assert s[j] == init[j];
          CmpTransitive(last, m, s[j]);
        }
      } else {
        k := k';
        forall j | 0 <= j < k
          ensures Cmp(s[j], s[k]) == Greater
        {
          assert s[j] == init[j];
        }
      }
    }
  }

  // ----- the minimax value, as a reference -----

  /** The depth-limited minimax value of a game tree: the leaf score at depth 0
      or where no move is legal, otherwise the greatest (bot to move) or least
      value of the children one level shallower. */
  function Value(t: GameTree, bot: Player, depth: nat, leaf: Leaf): int
    requires WellFormed(t)
    decreases t, 1, 0
  {
    if depth == 0 || t.moves == [] then leaf(t.position, bot)
    else if bot == t.position.turn then MaxValue(t, bot, depth, leaf, |t.children|)
    else MinValue(t, bot, depth, leaf, |t.children|)
  }

  /** The greatest value among the first n children. */
  function MaxValue(t: GameTree, bot: Player, depth: nat, leaf: Leaf, n: nat): int
    requires WellFormed(t) && depth > 0 && 1 <= n <= |t.children|
    decreases t, 0, n
  {
    var v := Value(t.children[n - 1], bot, depth - 1, leaf);
    if n == 1 then v else MaxInt(MaxValue(t, bot, depth, leaf, n - 1), v)
  }

  /** The least value among the first n children. */
  function MinValue(t: GameTree, bot: Player, depth: nat, leaf: Leaf, n: nat): int
    requires WellFormed(t) && depth > 0 && 1 <= n <= |t.children|
    decreases t, 0, n
  {
    var v := Value(t.children[n - 1], bot, depth - 1, leaf);
    if n == 1 then v else MinInt(MinValue(t, bot, depth, leaf, n - 1), v)
  }

  lemma {:induction false} MaxValueBounds(t: GameTree, bot: Player, depth: nat, leaf: Leaf, n: nat, j: nat)
    requires WellFormed(t) && depth > 0 && 1 <= n <= |t.children| && j < n
    ensures Value(t.children[j], bot, depth - 1, leaf) <= MaxValue(t, bot, depth, leaf, n)
    decreases n
  {
    if j < n - 1 {
      MaxValueBounds(t, bot, depth, leaf, n - 1, j);
    }
  }

  lemma {:induction false} MinValueBounds(t: GameTree, bot: Player, depth: nat, leaf: Leaf, n: nat, j: nat)
    requires WellFormed(t) && depth > 0 && 1 <= n <= |t.children| && j < n
    ensures MinValue(t, bot, depth, leaf, n) <= Value(t.children[j], bot, depth - 1, leaf)
    decreases n
  {
    if j < n - 1 {
      MinValueBounds(t, bot, depth, leaf, n - 1, j);
    }
  }

  // ----- generate_tree -----

  /** The move a child is searched with: its own move at the top level, the
      inherited one below. */
  function PropagatedMove(t: GameTree, i: nat, moveMade: BitMove, currentHeight: int, maxHeight: int): BitMove
    requires i < |t.moves|
  {
    if currentHeight == maxHeight then t.moves[i] else moveMade
  }

  /** What generate_tree returns for the position t. */
  function Tree(t: GameTree, bot: Player, moveMade: BitMove, currentHeight: I32, maxHeight: I32, leaf: Leaf): MoveGenerationData
    requires WellFormed(t) && currentHeight >= 0
    decreases t, 1, 0
  {
    if currentHeight == 0 then
      MoveGenerationData(leaf(t.position, bot), 0, moveMade)
    else if |t.moves| == 0 then
      MoveGenerationData(leaf(t.position, bot), currentHeight, moveMade)
    else
      var evaluations := Evaluations(t, bot, moveMade, currentHeight, maxHeight, leaf, |t.children|);
      if bot == t.position.turn then IterMax(evaluations).value else IterMin(evaluations).value
  }

  /** The evaluations vector after n iterations of the loop: one result per
      legal move, in generation order. */
  function Evaluations(t: GameTree, bot: Player, moveMade: BitMove, currentHeight: I32, maxHeight: I32,
                       leaf: Leaf, n: nat): (r: seq<MoveGenerationData>)
    requires WellFormed(t) && currentHeight >= 1 && n <= |t.children|
    ensures |r| == n
    decreases t, 0, n
  {
    if n == 0 then []
    else
      Evaluations(t, bot, moveMade, currentHeight, maxHeight, leaf, n - 1)
        + [Tree(t.children[n - 1], bot, PropagatedMove(t, n - 1, moveMade, currentHeight, maxHeight),
                currentHeight - 1, maxHeight, leaf)]
  }

  lemma {:induction false} EvaluationsAt(t: GameTree, bot: Player, moveMade: BitMove, currentHeight: I32, maxHeight: I32,
                                         leaf: Leaf, n: nat, j: nat)
    requires WellFormed(t) && currentHeight >= 1 && n <= |t.children| && j < n
    ensures Evaluations(t, bot, moveMade, currentHeight, maxHeight, leaf, n)[j]
         == Tree(t.children[j], bot, PropagatedMove(t, j, moveMade, currentHeight, maxHeight), currentHeight - 1, maxHeight, leaf)
    decreases n
  {
    if j < n - 1 {
      EvaluationsAt(t, bot, moveMade, currentHeight, maxHeight, leaf, n - 1, j);
    }
  }

  /** One more iteration of the loop of generate_tree appends the result
      for the next legal move. */
  lemma EvaluationsStep(t: GameTree, bot: Player, moveMade: BitMove, currentHeight: I32, maxHeight: I32, leaf: Leaf,
                        i: nat, evaluations: seq<MoveGenerationData>, e: MoveGenerationData)
    requires WellFormed(t) && currentHeight >= 1 && i < |t.children|
    requires evaluations == Evaluations(t, bot, moveMade, currentHeight, maxHeight, leaf, i)
    requires e == Tree(Child(t, t.moves[i]), bot, if currentHeight == maxHeight then t.moves[i] else moveMade,
                       currentHeight - 1, maxHeight, leaf)
    ensures evaluations + [e] == Evaluations(t, bot, moveMade, currentHeight, maxHeight, leaf, i + 1)
  {
    ChildAt(t, i);
  }

  /** generate_tree: a leaf is scored by the heuristic; otherwise one result
      per legal move, and the best of them for the player to move
      (Iterator::max for the bot, Iterator::min for its opponent). */
  method GenerateTree(board: Board, bot: Player, moveMade: BitMove, currentHeight: I32, maxHeight: I32, leaf: Leaf)
    returns (r: MoveGenerationData)
    requires board.Valid() && currentHeight >= 0
    modifies board
    ensures board.Valid()
    ensures board.node == old(board.node) && board.history == old(board.history) && board.applied == old(board.applied)
    ensures r == Tree(old(board.node), bot, moveMade, currentHeight, maxHeight, leaf)
    decreases currentHeight, 1
  {
    if currentHeight == 0 {
      return MoveGenerationData(leaf(board.Position(), bot), 0, moveMade);
    }

    var legalMoves := board.GenerateMoves();

    if |legalMoves| == 0 {
      return MoveGenerationData(leaf(board.Position(), bot), currentHeight, moveMade);
    }

    ghost var t := board.node;
    var evaluations: seq<MoveGenerationData> := [];

    for i := 0 to |legalMoves|
      invariant board.Valid()
      invariant board.node == t && board.history == old(board.history) && board.applied == old(board.applied)
      invariant evaluations == Evaluations(t, bot, moveMade, currentHeight, maxHeight, leaf, i)
    {
      var e := EvaluateMove(board, bot, legalMoves[i], moveMade, currentHeight, maxHeight, leaf);
      EvaluationsStep(t, bot, moveMade, currentHeight, maxHeight, leaf, i, evaluations, e);
      evaluations := evaluations + [e];
    }

    if bot == board.Turn() {
      r := IterMax(evaluations).value;
    } else {
      r := IterMin(evaluations).value;
    }
  }

  /** One iteration of the loop of generate_tree: apply the move, search the
      position it leads to one level shallower (passing the move itself down
      from the top level, the inherited move below it), and take it back. */
  method EvaluateMove(board: Board, bot: Player, mv: BitMove, moveMade: BitMove, currentHeight: I32, maxHeight: I32, leaf: Leaf)
    returns (e: MoveGenerationData)
    requires board.Valid() && mv in board.node.moves && currentHeight >= 1
    modifies board
    ensures board.Valid()
    ensures board.node == old(board.node) && board.history == old(board.history) && board.applied == old(board.applied)
    ensures e == Tree(Child(old(board.node), mv), bot, if currentHeight == maxHeight then mv else moveMade,
                      currentHeight - 1, maxHeight, leaf)
    decreases currentHeight, 0
  {
    ghost var child := Child(board.node, mv);
    board.ApplyMove(mv);
    if currentHeight == maxHeight {
      e := GenerateTree(board, bot, mv, currentHeight - 1, maxHeight, leaf);
    } else {
      e := GenerateTree(board, bot, moveMade, currentHeight - 1, maxHeight, leaf);
    }
    assert e == Tree(child, bot, if currentHeight == maxHeight then mv else moveMade, currentHeight - 1, maxHeight, leaf);
    board.UndoMove();
  }

  /** generate_best_move: nothing when the game is over; otherwise the move the
      exhaustive search picks, a best move for the side to move, applied to the
      board. At depth 0 that move is the null placeholder, which is not a
      legal move. */
  method GenerateBestMove(board: Board, searchDepth: I32, leaf: Leaf) returns (r: Outcome<BestMove>)
    requires board.Valid() && searchDepth >= 0
    modifies board
    ensures board.Valid()
    ensures IsGameOver(old(board.node.position)) ==>
              && r == Returned(BestMove(None, None))
              && board.node == old(board.node) && board.history == old(board.history) && board.applied == old(board.applied)
    ensures !IsGameOver(old(board.node.position)) && searchDepth == 0 ==> r == Failed
    ensures !IsGameOver(old(board.node.position)) && searchDepth > 0 ==>
              var m := Tree(old(board.node), old(board.node.position.turn), NullMove, searchDepth, searchDepth, leaf).bitMove;
              && m in old(board.node.moves)
              && r == Returned(BestMove(Some(m), Some(board)))
              && board.node == Child(old(board.node), m)
              && board.history == old(board.history) + [old(board.node)]
              && board.applied == old(board.applied) + [m]
              && Value(board.node, old(board.node.position.turn), searchDepth - 1, leaf)
                 == Value(old(board.node), old(board.node.position.turn), searchDepth, leaf)
  {
    if IsGameOver(board.Position()) {
      return Returned(BestMove(None, None));
    }

    var botColour := board.Turn();

    var moveGen := GenerateTree(board, botColour, NullMove, searchDepth, searchDepth, leaf);

    if moveGen.bitMove !in board.GenerateMoves() {
      assert searchDepth == 0 by {
        if searchDepth > 0 {
          TreeMoveIsRootMove(board.node, botColour, NullMove, searchDepth, searchDepth, leaf);
        }
      }
      return Failed;
    }
    TreeRootMoveIsOptimal(board.node, searchDepth, leaf);
    board.ApplyMove(moveGen.bitMove);

    return Returned(BestMove(Some(moveGen.bitMove), Some(board)));
  }

  // ----- properties of generate_tree -----

  /** Above the leaves, generate_tree passes up the result of one of the
      children, unchanged. */
  lemma TreeIsChildResult(t: GameTree, bot: Player, moveMade: BitMove, currentHeight: I32, maxHeight: I32, leaf: Leaf)
    returns (k: nat)
    requires WellFormed(t) && currentHeight >= 1 && t.moves != []
    ensures k < |t.children|
    ensures Tree(t, bot, moveMade, currentHeight, maxHeight, leaf)
         == Tree(t.children[k], bot, PropagatedMove(t, k, moveMade, currentHeight, maxHeight), currentHeight - 1, maxHeight, leaf)
  {
    var evaluations := Evaluations(t, bot, moveMade, currentHeight, maxHeight, leaf, |t.children|);
    var r := Tree(t, bot, moveMade, currentHeight, maxHeight, leaf);
    if bot == t.position.turn {
      k := IterMaxPicksLast(evaluations);
    } else {
      k := IterMinPicksFirst(evaluations);
    }
    EvaluationsAt(t, bot, moveMade, currentHeight, maxHeight, leaf, |t.children|, k);
  }

  /** At the top level the result's move is one of the legal moves; below it,
      the inherited move is passed through unchanged. */
  lemma {:induction false} TreeMoveIsRootMove(t: GameTree, bot: Player, moveMade: BitMove, currentHeight: I32, maxHeight: I32, leaf: Leaf)
    requires WellFormed(t) && currentHeight >= 0
    ensures currentHeight == maxHeight && currentHeight >= 1 && t.moves != [] ==>
              Tree(t, bot, moveMade, currentHeight, maxHeight, leaf).bitMove in t.moves
    ensures currentHeight < maxHeight ==> Tree(t, bot, moveMade, currentHeight, maxHeight, leaf).bitMove == moveMade
    decreases t
  {
    if currentHeight >= 1 && t.moves != [] {
      var k := TreeIsChildResult(t, bot, moveMade, currentHeight, maxHeight, leaf);
      TreeMoveIsRootMove(t.children[k], bot, PropagatedMove(t, k, moveMade, currentHeight, maxHeight),
                         currentHeight - 1, maxHeight, leaf);
    }
  }

  /** The move generate_best_move applies leads to a position whose minimax
      value one level shallower is the root's minimax value: it is a best move
      for the side to move. */
  lemma TreeRootMoveIsOptimal(t: GameTree, depth: I32, leaf: Leaf)
    requires WellFormed(t) && depth >= 1 && t.moves != []
    ensures var m := Tree(t, t.position.turn, NullMove, depth, depth, leaf).bitMove;
            && m in t.moves
            && Value(Child(t, m), t.position.turn, depth - 1, leaf) == Value(t, t.position.turn, depth, leaf)
  {
    var bot := t.position.turn;
    var k := TreeIsChildResult(t, bot, NullMove, depth, depth, leaf);
    TreeMoveIsRootMove(t.children[k], bot, t.moves[k], depth - 1, depth, leaf);
    TreeEvaluatesToValue(t.children[k], bot, t.moves[k], depth - 1, depth, leaf);
    TreeEvaluatesToValue(t, bot, NullMove, depth, depth, leaf);
    ChildAt(t, k);
  }

  /** The result's height lies between 0 and the height searched from. */
  lemma {:induction false} TreeHeightBounded(t: GameTree, bot: Player, moveMade: BitMove, currentHeight: I32, maxHeight: I32, leaf: Leaf)
    requires WellFormed(t) && currentHeight >= 0
    ensures 0 <= Tree(t, bot, moveMade, currentHeight, maxHeight, leaf).height <= currentHeight
    decreases t
  {
    if currentHeight >= 1 && t.moves != [] {
      var k := TreeIsChildResult(t, bot, moveMade, currentHeight, maxHeight, leaf);
      TreeHeightBounded(t.children[k], bot, PropagatedMove(t, k, moveMade, currentHeight, maxHeight), currentHeight - 1, maxHeight, leaf);
    }
  }

  /** generate_tree's evaluation is the minimax value of the tree. */
  lemma {:induction false} TreeEvaluatesToValue(t: GameTree, bot: Player, moveMade: BitMove, currentHeight: I32, maxHeight: I32, leaf: Leaf)
    requires WellFormed(t) && currentHeight >= 0
    ensures Tree(t, bot, moveMade, currentHeight, maxHeight, leaf).evaluation == Value(t, bot, currentHeight, leaf)
    decreases t, 1, 0
  {
    if currentHeight >= 1 && t.moves != [] {
      if bot == t.position.turn {
        FoldMaxIsMaxValue(t, bot, moveMade, currentHeight, maxHeight, leaf, |t.children|);
      } else {
        FoldMinIsMinValue(t, bot, moveMade, currentHeight, maxHeight, leaf, |t.children|);
      }
    }
  }

  lemma {:induction false} FoldMaxIsMaxValue(t: GameTree, bot: Player, moveMade: BitMove, currentHeight: I32, maxHeight: I32,
                                             leaf: Leaf, n: nat)
    requires WellFormed(t) && currentHeight >= 1 && 1 <= n <= |t.children|
    ensures IterMax(Evaluations(t, bot, moveMade, currentHeight, maxHeight, leaf, n)).value.evaluation
         == MaxValue(t, bot, currentHeight, leaf, n)
    decreases t, 0, n + 1
  {
    var s := Evaluations(t, bot, moveMade, currentHeight, maxHeight, leaf, n);
    IterMaxIsMaxEvaluation(s);
    MaxEvaluationIsMaxValue(t, bot, moveMade, currentHeight, maxHeight, leaf, n);
  }

  lemma {:induction false} FoldMinIsMinValue(t: GameTree, bot: Player, moveMade: BitMove, currentHeight: I32, maxHeight: I32,
                                             leaf: Leaf, n: nat)
    requires WellFormed(t) && currentHeight >= 1 && 1 <= n <= |t.children|
    ensures IterMin(Evaluations(t, bot, moveMade, currentHeight, maxHeight, leaf, n)).value.evaluation
         == MinValue(t, bot, currentHeight, leaf, n)
    decreases t, 0, n + 1
  {
    var s := Evaluations(t, bot, moveMade, currentHeight, maxHeight, leaf, n);
    IterMinIsMinEvaluation(s);
    MinEvaluationIsMinValue(t, bot, moveMade, currentHeight, maxHeight, leaf, n);
  }

  /** The greatest and least evaluation in a non-empty sequence of results. */
  function MaxEvaluation(s: seq<MoveGenerationData>): int
    requires s != []
  {
    if |s| == 1 then s[0].evaluation else MaxInt(MaxEvaluation(s[..|s| - 1]), s[|s| - 1].evaluation)
  }

  function MinEvaluation(s: seq<MoveGenerationData>): int
    requires s != []
  {
    if |s| == 1 then s[0].evaluation else MinInt(MinEvaluation(s[..|s| - 1]), s[|s| - 1].evaluation)
  }

  lemma {:induction false} IterMaxIsMaxEvaluation(s: seq<MoveGenerationData>)
    requires s != []
    ensures IterMax(s).value.evaluation == MaxEvaluation(s)
  {
    if |s| > 1 {
      IterMaxIsMaxEvaluation(s[..|s| - 1]);
    }
  }

  lemma {:induction false} IterMinIsMinEvaluation(s: seq<MoveGenerationData>)
    requires s != []
    ensures IterMin(s).value.evaluation == MinEvaluation(s)
  {
    if |s| > 1 {
      IterMinIsMinEvaluation(s[..|s| - 1]);
    }
  }

  lemma {:induction false} MaxEvaluationIsMaxValue(t: GameTree, bot: Player, moveMade: BitMove, currentHeight: I32, maxHeight: I32,
                                                   leaf: Leaf, n: nat)
    requires WellFormed(t) && currentHeight >= 1 && 1 <= n <= |t.children|
    ensures MaxEvaluation(Evaluations(t, bot, moveMade, currentHeight, maxHeight, leaf, n)) == MaxValue(t, bot, currentHeight, leaf, n)
    decreases t, 0, n
  {
    var s := Evaluations(t, bot, moveMade, currentHeight, maxHeight, leaf, n);
    var childMove := PropagatedMove(t, n - 1, moveMade, currentHeight, maxHeight);
    TreeEvaluatesToValue(t.children[n - 1], bot, childMove, currentHeight - 1, maxHeight, leaf);
    assert s[..n - 1] == Evaluations(t, bot, moveMade, currentHeight, maxHeight, leaf, n - 1);
    if n > 1 {
      MaxEvaluationIsMaxValue(t, bot, moveMade, currentHeight, maxHeight, leaf, n - 1);
    }
  }

  lemma {:induction false} MinEvaluationIsMinValue(t: GameTree, bot: Player, moveMade: BitMove, currentHeight: I32, maxHeight: I32,
                                                   leaf: Leaf, n: nat)
    requires WellFormed(t) && currentHeight >= 1 && 1 <= n <= |t.children|
    ensures MinEvaluation(Evaluations(t, bot, moveMade, currentHeight, maxHeight, leaf, n)) == MinValue(t, bot, currentHeight, leaf, n)
    decreases t, 0, n
  {
    var s := Evaluations(t, bot, moveMade, currentHeight, maxHeight, leaf, n);
    var childMove := PropagatedMove(t, n - 1, moveMade, currentHeight, maxHeight);
    TreeEvaluatesToValue(t.children[n - 1], bot, childMove, currentHeight - 1, maxHeight, leaf);
    assert s[..n - 1] == Evaluations(t, bot, moveMade, currentHeight, maxHeight, leaf, n - 1);
    if n > 1 {
      MinEvaluationIsMinValue(t, bot, moveMade, currentHeight, maxHeight, leaf, n - 1);
    }
  }
}
