/** src/types.rs: the search result of the alpha-beta engine, with a u8 height,
    its two sentinels and its ordering. */
module Types {
  import opened Prelude
  import opened Chess

  /** A backed-up score, the height (remaining depth) of the node that produced
      it, and the root move leading to it. */
  datatype MoveGenerationData = MoveGenerationData(evaluation: I32, height: U8, bitMove: BitMove)

  /** worst_evaluation: the starting value of a maximising node. */
  function WorstEvaluation(): MoveGenerationData
  {
    MoveGenerationData(I32_MIN, U8_MAX, NullMove)
  }

  /** best_evaluation: the starting value of a minimising node. */
  function BestEvaluation(): MoveGenerationData
  {
    MoveGenerationData(I32_MAX, 0, NullMove)
  }

  /** Ord::cmp: evaluation first, height only to break a tie; the move is ignored. */
  function Cmp(a: MoveGenerationData, b: MoveGenerationData): (o: Ordering)
    ensures o == Less <==> a.evaluation < b.evaluation || (a.evaluation == b.evaluation && a.height < b.height)
    ensures o == Equal <==> a.evaluation == b.evaluation && a.height == b.height
    ensures o == Greater <==> a.evaluation > b.evaluation || (a.evaluation == b.evaluation && a.height > b.height)
  {
    match CmpInt(a.evaluation, b.evaluation)
    case Equal => CmpInt(a.height, b.height)
    case ord => ord
  }

  /** PartialOrd::partial_cmp: always defined, and agrees with cmp. */
  function PartialCmp(a: MoveGenerationData, b: MoveGenerationData): (o: Option<Ordering>)
    ensures o.Some? && o.value == Cmp(a, b)
  {
    Some(Cmp(a, b))
  }

  /** std::cmp::max: the larger argument, the second one when they compare Equal. */
  function Max(a: MoveGenerationData, b: MoveGenerationData): (r: MoveGenerationData)
    ensures r == a || r == b
    ensures Cmp(r, a) != Less && Cmp(r, b) != Less
    ensures Cmp(a, b) == Equal ==> r == b
    ensures r.evaluation == MaxInt(a.evaluation, b.evaluation)
  {
    if Cmp(a, b) == Greater then a else b
  }

  /** std::cmp::min: the smaller argument, the first one when they compare Equal. */
  function Min(a: MoveGenerationData, b: MoveGenerationData): (r: MoveGenerationData)
    ensures r == a || r == b
    ensures Cmp(r, a) != Greater && Cmp(r, b) != Greater
    ensures Cmp(a, b) == Equal ==> r == a
    ensures r.evaluation == MinInt(a.evaluation, b.evaluation)
  {
    if Cmp(a, b) == Greater then b else a
  }

  lemma CmpReflexive(a: MoveGenerationData)
    ensures Cmp(a, a) == Equal
  {
  }

  /** Swapping the arguments reverses the result. */
  lemma CmpAntisymmetric(a: MoveGenerationData, b: MoveGenerationData)
    ensures Cmp(b, a) == Cmp(a, b).Reverse()
  {
  }

  lemma CmpTransitive(a: MoveGenerationData, b: MoveGenerationData, c: MoveGenerationData)
    ensures Cmp(a, b) != Greater && Cmp(b, c) != Greater ==> Cmp(a, c) != Greater
    ensures Cmp(a, b) == Less && Cmp(b, c) != Greater ==> Cmp(a, c) == Less
  {
  }

  /** Values that differ only in their move compare Equal although the derived
      == tells them apart. */
  lemma CmpIgnoresMove(a: MoveGenerationData, m: BitMove)
    ensures Cmp(a, a.(bitMove := m)) == Equal
    ensures m != a.bitMove ==> a != a.(bitMove := m)
  {
  }

  /** worst_evaluation loses to every result with a real score, but beats a
      mate against the bot found at any height below 255, so a maximising node
      whose every child is such a mate keeps the sentinel and its null move. */
  lemma WorstEvaluationOrder(d: MoveGenerationData)
    ensures d.evaluation > I32_MIN ==> Cmp(WorstEvaluation(), d) == Less && Max(WorstEvaluation(), d) == d
    ensures d.evaluation == I32_MIN && d.height < U8_MAX ==>
              Cmp(WorstEvaluation(), d) == Greater && Max(WorstEvaluation(), d) == WorstEvaluation()
  {
  }

  /** best_evaluation beats every result with a real score, and is never
      above a mate for the bot; a minimising node whose every child is such a
      mate keeps the sentinel and its null move, whatever the heights. */
  lemma BestEvaluationOrder(d: MoveGenerationData)
    ensures d.evaluation < I32_MAX ==> Cmp(BestEvaluation(), d) == Greater && Min(BestEvaluation(), d) == d
    ensures d.evaluation == I32_MAX ==> Cmp(BestEvaluation(), d) != Greater && Min(BestEvaluation(), d) == BestEvaluation()
  {
  }

  /** The starting value of a maximising node that every child result replaces. */
  function CorrectedWorstEvaluation(): MoveGenerationData
  {
    MoveGenerationData(I32_MIN, 0, NullMove)
  }

  /** The starting value of a minimising node that every child result of
      height below 255 replaces. */
  function CorrectedBestEvaluation(): MoveGenerationData
  {
    MoveGenerationData(I32_MAX, U8_MAX, NullMove)
  }

  lemma CorrectedWorstIsLeast(d: MoveGenerationData)
    ensures Cmp(CorrectedWorstEvaluation(), d) != Greater
    ensures Max(CorrectedWorstEvaluation(), d) == d
  {
  }

  lemma CorrectedBestIsGreatest(d: MoveGenerationData)
    requires d.height < U8_MAX
    ensures Cmp(CorrectedBestEvaluation(), d) == Greater
    ensures Min(CorrectedBestEvaluation(), d) == d
  {
  }

  /** BestMove: the chosen move and the board after it. The SAN rendering of
      the move is not part of this model. */
  datatype BestMove = BestMove(uciMove: BitMove, resultingBoard: Board)
}
