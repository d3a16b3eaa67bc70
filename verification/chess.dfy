/** The chess-rules collaborator (the pleco crate), seen only through what the
    engine asks of it: whose turn it is, the legal moves, applying and undoing a
    move, the checkmate and stalemate queries and the piece on each square.
    Chess rules themselves are not modelled: a position comes with its legal
    moves as a finite game tree. */
module Chess {
  import opened Prelude

  datatype Player = White | Black

  function Opponent(p: Player): (q: Player)
    ensures q != p
  {
    if p == White then Black else White
  }

  datatype Kind = Pawn | Knight | Bishop | Rook | Queen | King

  datatype Piece = Piece(kind: Kind, colour: Player)

  /** The 64 squares, indexed as pleco does: A1 = 0, B1 = 1, ..., H8 = 63. */
  type Squares = s: seq<Option<Piece>> | |s| == 64 witness seq(64, _ => None)

  datatype Position = Position(squares: Squares, turn: Player, checkmate: bool, stalemate: bool)

  /** is_game_over in src/bot/utils.rs: checkmate or stalemate. */
  predicate IsGameOver(p: Position)
  {
    p.checkmate || p.stalemate
  }

  /** pleco's BitMove; NullMove is BitMove::null(), never a legal move. */
  datatype BitMove = NullMove | Move(code: nat)

  /** A position, its legal moves in generation order and the position each
      of them leads to. */
  datatype GameTree = Node(position: Position, moves: seq<BitMove>, children: seq<GameTree>)

  ghost predicate DistinctMoves(s: seq<BitMove>)
  {
    forall i, j :: 0 <= i < j < |s| ==> s[i] != s[j]
  }

  /** What pleco guarantees of every position it produces: one child per legal
      move, legal moves are distinct real moves, and a position is checkmate or
      stalemate exactly when it has no legal move. */
  ghost predicate WellFormed(t: GameTree)
  {
    && |t.moves| == |t.children|
    && NullMove !in t.moves
    && DistinctMoves(t.moves)
    && (IsGameOver(t.position) <==> t.moves == [])
    && forall i :: 0 <= i < |t.children| ==> WellFormed(t.children[i])
  }

  function IndexOf(s: seq<BitMove>, m: BitMove): (i: nat)
    requires m in s
    ensures i < |s| && s[i] == m
  {
    if s[0] == m then 0 else 1 + IndexOf(s[1..], m)
  }

  /** The position reached by playing the legal move m. */
  function Child(t: GameTree, m: BitMove): GameTree
    requires |t.moves| == |t.children| && m in t.moves
  {
    t.children[IndexOf(t.moves, m)]
  }

  lemma ChildAt(t: GameTree, i: nat)
    requires WellFormed(t) && i < |t.moves|
    ensures Child(t, t.moves[i]) == t.children[i]
  {
  }

  /** The k-th entry of a move stack: a well-formed position, a legal move in
      it, and the position that move leads to is the next entry (or node). */
  ghost predicate Linked(node: GameTree, history: seq<GameTree>, applied: seq<BitMove>, k: int)
    requires 0 <= k < |history| == |applied|
  {
    && WellFormed(history[k])
    && applied[k] in history[k].moves
    && Child(history[k], applied[k]) == (if k + 1 < |history| then history[k + 1] else node)
  }

  /** A stack that records how the position node was reached: each saved
      position, with the move applied to it, leads to the next one. */
  ghost predicate StackValid(node: GameTree, history: seq<GameTree>, applied: seq<BitMove>)
  {
    && WellFormed(node)
    && |history| == |applied|
    && forall k :: 0 <= k < |history| ==> Linked(node, history, applied, k)
  }

  /** Playing a legal move pushes the position and the move. */
  lemma StackPush(node: GameTree, history: seq<GameTree>, applied: seq<BitMove>, m: BitMove)
    requires StackValid(node, history, applied) && m in node.moves
    ensures StackValid(Child(node, m), history + [node], applied + [m])
  {
    var h, a, next := history + [node], applied + [m], Child(node, m);
    assert WellFormed(next) by {
      assert next == node.children[IndexOf(node.moves, m)];
    }
    forall k | 0 <= k < |h|
      ensures Linked(next, h, a, k)
    {
      if k < |history| {
        assert Linked(node, history, applied, k);
        assert h[k] == history[k] && a[k] == applied[k];
        if k + 1 < |history| {
          assert h[k + 1] == history[k + 1];
        } else {
          assert h[k + 1] == node;
        }
      } else {
        assert h[k] == node && a[k] == m;
      }
    }
  }

  /** Taking back the last move pops the position it was played from. */
  lemma StackPop(node: GameTree, history: seq<GameTree>, applied: seq<BitMove>)
    requires StackValid(node, history, applied) && history != []
    ensures StackValid(history[|history| - 1], history[..|history| - 1], applied[..|applied| - 1])
  {
    var n := |history| - 1;
    var h, a := history[..n], applied[..n];
    assert Linked(node, history, applied, n);
    forall k | 0 <= k < |h|
      ensures Linked(history[n], h, a, k)
    {
      assert Linked(node, history, applied, k);
      assert h[k] == history[k] && a[k] == applied[k];
      if k + 1 < |h| {
        assert h[k + 1] == history[k + 1];
      }
    }
  }

  /** pleco's mutable Board: the current position and the stack of positions
      and moves that apply_move pushes and undo_move pops. */
  class Board {
    var node: GameTree
    var history: seq<GameTree>
    var applied: seq<BitMove>

    ghost predicate Valid()
      reads this
    {
      StackValid(node, history, applied)
    }

    constructor (t: GameTree)
      requires WellFormed(t)
      ensures Valid() && node == t && history == [] && applied == []
    {
      node := t;
      history := [];
      applied := [];
    }

    function Position(): Position
      reads this
    {
      node.position
    }

    function Turn(): Player
      reads this
    {
      node.position.turn
    }

    function GenerateMoves(): seq<BitMove>
      reads this
    {
      node.moves
    }

    method ApplyMove(m: BitMove)
      requires Valid() && m in node.moves
      modifies this
      ensures Valid()
      ensures node == Child(old(node), m)
      ensures history == old(history) + [old(node)] && applied == old(applied) + [m]
    {
      StackPush(node, history, applied, m);
      history := history + [node];
      applied := applied + [m];
      node := Child(node, m);
    }

    method UndoMove()
      requires Valid() && applied != []
      modifies this
      ensures Valid()
      ensures node == old(history[|history| - 1])
      ensures history == old(history[..|history| - 1]) && applied == old(applied[..|applied| - 1])
    {
      StackPop(node, history, applied);
      var n := |history| - 1;
      node := history[n];
      history := history[..n];
      applied := applied[..n];
    }

    /** Board::clone: an independent copy of the position and its stack. */
    method Clone() returns (b: Board)
      requires Valid()
      ensures fresh(b) && b.Valid()
      ensures b.node == node && b.history == history && b.applied == applied
    {
      b := new Board(node);
      b.history := history;
      b.applied := applied;
    }
  }
}
