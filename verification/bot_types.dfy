/** src/bot/types.rs: the search result of the exhaustive minimax, with an i32
    height, and its ordering. */
module BotTypes {
  import opened Prelude
  import opened Chess

  datatype MoveGenerationData = MoveGenerationData(evaluation: I32, height: I32, bitMove: BitMove)

  /** Ord::cmp: evaluation first, height only to break a tie; the move is ignored. */
  function Cmp(a: MoveGenerationData, b: MoveGenerationData): (o: Ordering)
    ensures o == Less <==> a.evaluation < b.evaluation || (a.evaluation == b.evaluation && a.height < b.height)
    ensures o == Equal <==> a.evaluation == b.evaluation && a.height == b.height
    ensures o == Greater <==> a.evaluation > b.evaluation || (a.evaluation == b.evaluation && a.height > b.height)
  {
    match CmpInt(a.evaluation, b.evaluation)
    case Equal => CmpInt(a.height, b.height)
    case ord => ord
  }

  /** PartialOrd::partial_cmp: always defined, and agrees with cmp. */
  function PartialCmp(a: MoveGenerationData, b: MoveGenerationData): (o: Option<Ordering>)
    ensures o.Some? && o.value == Cmp(a, b)
  {
    Some(Cmp(a, b))
  }

  /** std::cmp::max (and the step of Iterator::max): the second argument on Equal. */
  function Max(a: MoveGenerationData, b: MoveGenerationData): (r: MoveGenerationData)
    ensures r == a || r == b
    ensures Cmp(r, a) != Less && Cmp(r, b) != Less
    ensures Cmp(a, b) == Equal ==> r == b
    ensures r.evaluation == MaxInt(a.evaluation, b.evaluation)
  {
    if Cmp(a, b) == Greater then a else b
  }

  /** std::cmp::min (and the step of Iterator::min): the first argument on Equal. */
  function Min(a: MoveGenerationData, b: MoveGenerationData): (r: MoveGenerationData)
    ensures r == a || r == b
    ensures Cmp(r, a) != Greater && Cmp(r, b) != Greater
    ensures Cmp(a, b) == Equal ==> r == a
    ensures r.evaluation == MinInt(a.evaluation, b.evaluation)
  {
    if Cmp(a, b) == Greater then b else a
  }

  lemma CmpReflexive(a: MoveGenerationData)
    ensures Cmp(a, a) == Equal
  {
  }

  lemma CmpAntisymmetric(a: MoveGenerationData, b: MoveGenerationData)
    ensures Cmp(b, a) == Cmp(a, b).Reverse()
  {
  }

  lemma CmpTransitive(a: MoveGenerationData, b: MoveGenerationData, c: MoveGenerationData)
    ensures Cmp(a, b) != Greater && Cmp(b, c) != Greater ==> Cmp(a, c) != Greater
    ensures Cmp(a, b) == Less && Cmp(b, c) != Greater ==> Cmp(a, c) == Less
  {
  }

  lemma CmpIgnoresMove(a: MoveGenerationData, m: BitMove)
    ensures Cmp(a, a.(bitMove := m)) == Equal
    ensures m != a.bitMove ==> a != a.(bitMove := m)
  {
  }

  /** BestMove: the chosen move and the board after it, both absent when the
      game is already over. */
  datatype BestMove = BestMove(uciMove: Option<BitMove>, resultingBoard: Option<Board>)
}
