# Chess bot core in Dafny

This project models the move-choosing core of a small chess bot. The core has four parts:

- A static evaluator scores a position from the bot's point of view. Checkmate scores an `i32` extreme and stalemate scores 0. Any other position scores a sum over the 64 squares of material plus a piece-square bonus, using the king's early or end table by game phase.
- `Engine::search` is a depth-limited minimax with fail-soft alpha-beta pruning. It works over a mutable board that applies and undoes moves. `Engine::best_move` runs it on a clone of the board from the full window.
- `generate_tree` is the older, exhaustive minimax. It collects one result per legal move and passes up the greatest when the bot is to move, the least otherwise. `generate_best_move` runs it from the root.
- `MoveGenerationData` is the search result: a score, the height of the node that produced it, and the root move leading to it. It is ordered by score, then height, ignoring the move. There are two variants: the engine's has a `u8` height and sentinel constructors, generate_tree's has an `i32` height.

The chess-rules library (pleco) is modelled as a finite game tree. Each node has its position, its legal moves in generation order, and the child each move leads to (`Chess.GameTree`, with `Chess.WellFormed`). The mutable board is a class holding the current node and a stack of saved positions and applied moves (`Chess.Board`). `ApplyMove` pushes and `UndoMove` pops.

What is proved:
- `heuristic` computes the sum it is meant to, stays inside `i32` at every step, and is symmetric under mirroring ranks and swapping colours.
- Both searches hand the board back exactly as they received it, on every path including the cutoffs.
- The pruned search finds exactly the unpruned minimax value from the full window. Below that, it keeps the fail-soft window promise.
- `generate_tree` and `search` both report a best root move: a legal move whose resulting position has the root's minimax value. For `search` this holds whenever it reports a real move. `generate_tree`'s result height also stays within bounds.
- The engine's sentinel results can win against real child results, so the engine as written reports the null move on some positions. This is shown on two concrete game trees (see "## Findings"). With the corrected sentinels it always reports a legal root move.

Files:
- `prelude.dfy`: `Option`, `Ordering`, `Outcome` (a result, or `Failed` where the source panics), `i32`/`u8` ranges and sums.
- `chess.dfy`: the pleco abstraction.
- `heuristics.dfy`: `src/bot/heuristics.rs`.
- `types.dfy`: `src/types.rs`.
- `bot_types.dfy`: `src/bot/types.rs`.
- `move_generation.dfy`: `src/bot/move_generation.rs`.
- `engine.dfy`: `src/bot/engine.rs`.

## Model

| member | source | states |
|---|---|---|
| Heuristics.PieceValue | src/bot/heuristics.rs:79-203 | A `*_value` result is positive exactly when the piece has the bot's colour. Otherwise it is the negation of base plus bonus. Its magnitude is at most 20050 (king base plus the largest bonus). |
| Heuristics.OppositeColoursCancel | src/bot/heuristics.rs:84-94 | The table is chosen by the bot's colour alone, so a white and a black piece of one type on the same square cancel. |
| Heuristics.SquareScore | src/bot/heuristics.rs:45-75 | One square of the second loop adds between -20050 and 20050. An empty square adds nothing. |
| Heuristics.PositionalScore | src/bot/heuristics.rs:43-76 | A non-terminal score lies within ±64·20050, well inside `i32` and never equal to either checkmate sentinel. |
| Heuristics.Heuristic | src/bot/heuristics.rs:3-77 | Checkmate gives `i32::MIN` when the bot is to move and `i32::MAX` otherwise, whatever the material. A stalemate that is not checkmate gives 0. The first loop accumulates pawn 1, knight 3, bishop 3, rook 5 and queen 9 over both colours, and the endgame flag is "at most 30". The second loop adds each square's signed piece value, with the king on the end table exactly in the endgame. Every partial sum stays inside `i32`, and the result lies within ±64·20050. |
| Heuristics.TablesAreRankMirrors | src/bot/heuristics.rs:221-357 | Each of the seven Black tables is the White table with its ranks reversed. |
| Heuristics.TableMirror | src/bot/heuristics.rs:84-88 | Reading one colour's table at a square reads the other colour's table at the rank-mirrored square. |
| Heuristics.MaterialMirror | src/bot/heuristics.rs:19-41 | The material count deciding the game phase is unchanged by mirroring the board. |
| Heuristics.ColourMirrorSymmetry | src/bot/heuristics.rs:3-77 | Scoring a position for one colour equals scoring its rank-mirrored, colour-swapped position for the other colour. This includes the terminal cases. |
| Types.Cmp | src/types.rs:38-45 | `cmp` is Less, Equal or Greater exactly by lexicographic comparison of (evaluation, height). The height matters only on equal evaluations. |
| Types.PartialCmp | src/types.rs:47-51 | `partial_cmp` is always `Some(cmp)`. |
| Types.CmpReflexive | src/types.rs:38-45 | A value compares Equal to itself. |
| Types.CmpAntisymmetric | src/types.rs:38-45 | Swapping the arguments reverses the ordering. |
| Types.CmpTransitive | src/types.rs:38-45 | "Not greater" and "less" are transitive. |
| Types.CmpIgnoresMove | src/types.rs:11-16 | Values differing only in their move compare Equal, yet the derived `==` tells them apart. |
| Types.Max | src/bot/engine.rs:74 | `std::cmp::max` returns one of its arguments and is not below either. On Equal it returns the second, so a later child wins a tie. Its evaluation is the larger evaluation. |
| Types.Min | src/bot/engine.rs:97 | `std::cmp::min` returns one of its arguments and is not above either. On Equal it returns the first, so the earlier value is kept. Its evaluation is the smaller evaluation. |
| Types.WorstEvaluationOrder | src/types.rs:19-25 | `worst_evaluation` is below and replaced by every value with evaluation above `i32::MIN`. It is above, and kept against, every value with evaluation `i32::MIN` and height below 255. |
| Types.BestEvaluationOrder | src/types.rs:27-33 | `best_evaluation` is above and replaced by every value with evaluation below `i32::MAX`. It is never above, and is kept against, every value with evaluation `i32::MAX`. |
| Types.CorrectedWorstIsLeast | src/types.rs:19-25 | With height 0 the maximising sentinel is below or equal to every value, so `max` always replaces it. |
| Types.CorrectedBestIsGreatest | src/types.rs:27-33 | With height 255 the minimising sentinel is above every value of smaller height, so `min` replaces it. |
| BotTypes.Cmp | src/bot/types.rs:18-25 | Lexicographic on (evaluation, height) with an `i32` height, in both directions of each outcome. |
| BotTypes.PartialCmp | src/bot/types.rs:27-31 | `partial_cmp` is always `Some(cmp)`. |
| BotTypes.CmpReflexive | src/bot/types.rs:18-25 | A value compares Equal to itself. |
| BotTypes.CmpAntisymmetric | src/bot/types.rs:18-25 | Swapping the arguments reverses the ordering. |
| BotTypes.CmpTransitive | src/bot/types.rs:18-25 | "Not greater" and "less" are transitive. |
| BotTypes.CmpIgnoresMove | src/bot/types.rs:9-14 | Values differing only in their move compare Equal, yet the derived `==` tells them apart. |
| BotTypes.Max | src/bot/move_generation.rs:61 | `std::cmp::max`, the step of `Iterator::max`: one of its arguments, not below either, the second on Equal. |
| BotTypes.Min | src/bot/move_generation.rs:63 | `std::cmp::min`, the step of `Iterator::min`: one of its arguments, not above either, the first on Equal. |
| MoveGeneration.IterMax | src/bot/move_generation.rs:61 | `Iterator::max` is None exactly on an empty sequence. The `unwrap` after the non-empty loop therefore cannot fail. |
| MoveGeneration.IterMaxIsGreatest | src/bot/move_generation.rs:61 | No element compares Greater than the maximum. |
| MoveGeneration.IterMaxPicksLast | src/bot/move_generation.rs:61 | The maximum is an element, and every later element is strictly Less: it is the last of the greatest. |
| MoveGeneration.IterMin | src/bot/move_generation.rs:63 | `Iterator::min` is None exactly on an empty sequence. |
| MoveGeneration.IterMinIsLeast | src/bot/move_generation.rs:63 | No element compares Less than the minimum. |
| MoveGeneration.IterMinPicksFirst | src/bot/move_generation.rs:63 | The minimum is an element, and every earlier element is strictly Greater: it is the first of the least. |
| MoveGeneration.IterMaxIsMaxEvaluation | src/bot/move_generation.rs:61 | The evaluation of `Iterator::max` is the greatest evaluation in the sequence. |
| MoveGeneration.IterMinIsMinEvaluation | src/bot/move_generation.rs:63 | The evaluation of `Iterator::min` is the least evaluation in the sequence. |
| MoveGeneration.Evaluations | src/bot/move_generation.rs:44-58 | After n iterations the vector holds exactly n results. |
| MoveGeneration.EvaluationsAt | src/bot/move_generation.rs:46-55 | Entry j is the search of the j-th legal move's position one level shallower. It carries the move itself at the top level and the inherited move below. |
| MoveGeneration.EvaluationsStep | src/bot/move_generation.rs:46-57 | One iteration appends exactly the next legal move's result. |
| MoveGeneration.GenerateTree | src/bot/move_generation.rs:26-66 | Returns what the `Tree` function describes and leaves the board exactly as it found it. The `Tree` function is: the leaf score at height 0 (height 0) or with no legal move (the current height); otherwise `Iterator::max` of the child results when the bot is to move and `Iterator::min` otherwise. |
| MoveGeneration.EvaluateMove | src/bot/move_generation.rs:46-57 | One loop iteration: apply the move, search one level shallower, undo. It yields that child's result and restores the board. |
| MoveGeneration.GenerateBestMove | src/bot/move_generation.rs:4-23 | The result is `(None, None)` exactly when the game is over, with the position, saved positions and applied moves unchanged. Otherwise, from a positive depth, it is the searched move, which is a legal move of the position leading to a position of the root's minimax value. That move has been applied to the board: position, saved positions and applied moves all advanced by one. |
| MoveGeneration.TreeIsChildResult | src/bot/move_generation.rs:59-64 | Above the leaves the result is one child's result, passed up unchanged. |
| MoveGeneration.TreeMoveIsRootMove | src/bot/move_generation.rs:49-55 | Called with current height equal to the maximum height (at least 1) on a position with legal moves, the result's move is one of its legal moves. Below the top it is the inherited move. |
| MoveGeneration.TreeRootMoveIsOptimal | src/bot/move_generation.rs:13-17 | The move generate_best_move applies is legal, and the minimax value of the position it leads to (one level shallower) equals the root's minimax value. |
| MoveGeneration.TreeHeightBounded | src/bot/move_generation.rs:26-66 | The result height lies between 0 and the current height. |
| MoveGeneration.TreeEvaluatesToValue | src/bot/move_generation.rs:26-66 | The evaluation is the depth-limited minimax value of the tree with the same leaf scores. |
| MoveGeneration.FoldMaxIsMaxValue | src/bot/move_generation.rs:60-61 | Folding the first n child results with `max` gives the greatest of their minimax values. |
| MoveGeneration.FoldMinIsMinValue | src/bot/move_generation.rs:62-63 | Folding the first n child results with `min` gives the least of their minimax values. |
| MoveGeneration.MaxEvaluationIsMaxValue | src/bot/move_generation.rs:44-61 | The greatest evaluation among the first n child results is the greatest minimax value of those children. |
| MoveGeneration.MinEvaluationIsMinValue | src/bot/move_generation.rs:44-63 | The least evaluation among the first n child results is the least minimax value of those children. |
| MoveGeneration.MaxValueBounds | src/bot/move_generation.rs:60-61 | Every child's minimax value is at most the maximising node's value. |
| MoveGeneration.MinValueBounds | src/bot/move_generation.rs:62-63 | Every child's minimax value is at least the minimising node's value. |
| Engine.Engine.constructor | src/bot/engine.rs:11-16 | A new engine holds the given board and search depth 4. |
| Engine.Engine.BestMove | src/bot/engine.rs:18-42 | Returns nothing exactly when the game is over. Otherwise it searches a clone from the full window, starting nodes from `worst_evaluation`/`best_evaluation`. It fails exactly when the search reports the null move, because `uci_to_san` panics before the move is applied. Otherwise the depth is positive and the reported move is a legal root move leading to a position whose minimax value (one level shallower) is the root's minimax value: a best move for the side to move. The result holds the clone with that move applied: its position, saved positions and applied moves all advanced by one. The engine's own board is untouched. |
| Engine.MateInTwoBestMove | src/bot/engine.rs:30-35 | `best_move` on an engine holding a forced mate in two fails: the search reports the null move. |
| Engine.Engine.Search | src/bot/engine.rs:44-111 | Returns what the `AlphaBeta` function describes and leaves the board (position, saved positions and applied moves) exactly as it was. The `AlphaBeta` function is: the heuristic with height 0 at height 0; the heuristic with the node's height when no move is legal; the maximising loop exactly when the bot is to move. |
| Engine.Engine.SearchMax | src/bot/engine.rs:63-85 | The maximising loop folds `max` from the starting value. It stops after the first child whose value exceeds beta, and otherwise raises alpha. Each `apply_move` is undone on both the cutoff and the normal path, so the board is restored. |
| Engine.Engine.SearchMin | src/bot/engine.rs:86-109 | The minimising loop folds `min` from the starting value. It stops after the first child whose value drops below alpha, and otherwise lowers beta. The board is restored on both paths. |
| Engine.MaxLoopUnfold | src/bot/engine.rs:74-81 | One iteration of the maximising loop: the cutoff returns the new value, and otherwise the loop continues with alpha raised. |
| Engine.MinLoopUnfold | src/bot/engine.rs:97-104 | One iteration of the minimising loop: the cutoff returns the new value, and otherwise the loop continues with beta lowered. |
| Engine.AlphaBetaWindow | src/bot/engine.rs:44-111 | For any window with alpha at most beta, a result below alpha is an upper bound on the minimax value, one above beta is a lower bound, and one inside the window is exact. |
| Engine.MaxLoopWindow | src/bot/engine.rs:63-85 | The maximising loop keeps that window promise for the greatest child value, across cutoffs and the raised alpha. |
| Engine.MinLoopWindow | src/bot/engine.rs:86-109 | The minimising loop keeps that window promise for the least child value, across cutoffs and the lowered beta. |
| Engine.PruningIsSound | src/bot/engine.rs:27-30 | From the window (`i32::MIN`, `i32::MAX`), the pruned search's evaluation equals the minimax value. It also equals generate_tree's evaluation with the same leaf scores, for either pair of sentinels. |
| Engine.AlphaBetaMoveIsRootMoveOrNull | src/bot/engine.rs:64-95 | The reported move is a legal root move or the null move at the root. Below the root it is the inherited move or the null move. |
| Engine.MaxLoopMove | src/bot/engine.rs:64-74 | The maximising loop only ever holds the sentinel's null move or a move a child reported. |
| Engine.MinLoopMove | src/bot/engine.rs:87-97 | The minimising loop only ever holds the sentinel's null move or a move a child reported. |
| Engine.RootLoopMoveValue | src/bot/engine.rs:63-85 | At the root, searched from the full window, whenever the maximising loop holds a real move, that move is legal and the minimax value of the position it leads to equals the held evaluation. |
| Engine.RootMoveIsOptimal | src/bot/engine.rs:27-30 | A non-null move reported by the root search is legal, and the minimax value of the position it leads to (one level shallower) equals the root's minimax value, for either pair of sentinels. |
| Engine.CorrectedSearchKeepsMove | src/bot/engine.rs:44-111 | Under the corrected sentinels the result height never exceeds the node's height. The move is a legal root move at the root and the inherited move below. |
| Engine.CorrectedMaxLoop | src/bot/engine.rs:63-85 | Under the corrected sentinels the maximising loop's value, after any child, carries a real move and a height below the node's. |
| Engine.CorrectedMinLoop | src/bot/engine.rs:86-109 | Under the corrected sentinels the minimising loop's value, after any child, carries a real move and a height below the node's. |
| Engine.CorrectedRootMoveIsLegal | src/bot/engine.rs:27-30 | Under the corrected sentinels the root search from a position with a legal move reports a legal move, and still finds the minimax value. |
| Engine.MateInTwoYieldsNullMove | src/bot/engine.rs:86-109 | For a forced mate in two at depth 4 the search as written returns `(i32::MAX, 0, null)`. The minimising node kept `best_evaluation`. The corrected sentinels report the mating move. |
| Engine.ForcedLossYieldsNullMove | src/bot/engine.rs:63-85 | For a forced loss at depth 4 the search as written returns `worst_evaluation` and its null move. The corrected sentinels report the only move. |

## Left out

- The HTTP/Lambda layer, routes, handlers, the serde request and response structs, `uci_to_san` and the other FEN/SAN helpers are not part of this model. They are I/O and string conversion.
- pleco is not modelled as code. Move generation, `apply_move`/`undo_move`, `checkmate`/`stalemate`, `piece_at_sq` and `clone` become the game tree and the `Chess.Board` class. `is_game_over` becomes the predicate `Chess.IsGameOver`.
- `piece_count_heuristic` is not part of this model. `generate_tree` takes its leaf evaluator as a parameter, any total function of the position and the bot's colour.
- `src/bot/engine.rs:3` imports `is_game_over` from the heuristics module, which does not define it. The model uses the one of `src/bot/utils.rs`.
- The commented-out `apply_heuristic` and the commented `Copy` impl are not modelled.
- Engine.Engine.BestMove: the panic in `uci_to_san` when the search reports the null move (at depth 0, or when a sentinel wins as in "## Findings") is modelled as `Failed`.
- Engine.Engine.BestMove: the SAN string of the result is omitted, and `BestMove` holds the move itself rather than its UCI string.
- MoveGeneration.GenerateBestMove: at depth 0 the source applies the null move to the board. That run is modelled as `Failed` with no promise about the board. `BestMove` holds the move rather than its string.
- MoveGeneration.GenerateTree: requires a non-negative height. From a negative height the source would recurse until no move is legal and could underflow `i32`.
- The loop body of `generate_tree` is a separate method (`EvaluateMove`), and the two loops of `search` are separate methods (`SearchMax`, `SearchMin`). Each keeps the source's order of operations.
- The `i32` and `u8` widths are kept as subset types. Every value the model computes is proved to stay in range, so wrap-around never arises.

## Findings

| source | as written | input that shows it | evidently intended | confidence | as-written member | corrected member |
|---|---|---|---|---|---|---|
| src/types.rs:27-33 | `best_evaluation` is `(i32::MAX, 0, null)`. It ties any mate for the bot on score and wins on height, so a minimising node whose children all mate keeps it and its null move. | A forced mate in two searched at depth 4: the root returns the null move, and `best_move` passes it to `uci_to_san`. The `unwrap` at src/utils.rs:45 panics before `apply_move` runs (src/bot/engine.rs:30-35). | Every child result replaces the starting value: height 255. | not executed | Engine.MateInTwoYieldsNullMove, Engine.MateInTwoBestMove | Engine.CorrectedRootMoveIsLegal |
| src/types.rs:19-25 | `worst_evaluation` is `(i32::MIN, 255, null)`. It ties any mate against the bot on score and wins on height, so a maximising node whose children all lose keeps it and its null move. | A position whose only move allows mate, searched at depth 4: the root returns the null move, and `best_move` panics the same way. | Every child result replaces the starting value: height 0. | not executed | Engine.ForcedLossYieldsNullMove | Engine.CorrectedRootMoveIsLegal |
