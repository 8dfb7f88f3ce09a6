/**
 * The frontend chess store: the current position (FEN, move history, move counter), the last
 * analysis and an "analysing" flag, with the actions the user interface calls.
 *
 * chess.js is foreign code and is modelled as an oracle. Its `move` either plays the move,
 * rejects it (older releases return null) or throws (newer releases); the store handles all three.
 */
module FrontendStore {
  import opened Wrappers

  /** What `chess.move(move)` does on a game loaded from a FEN. */
  datatype MoveOutcome = Moved(fen: string) | Rejected | Threw

  /**
   * The chess.js oracle: `loads(fen)` is false where `new Chess(fen)` throws; `move(fen, m)`
   * is the outcome of `chess.move(m)` on a game loaded from `fen`.
   */
  datatype ChessJs = ChessJs(loads: string -> bool, move: (string, string) -> MoveOutcome)

  /** The store's view of an analysis; it only stores and returns it. */
  datatype AnalysisResult = AnalysisResult(
    evaluation: real,
    bestMove: Option<string>,
    principalVariation: seq<string>,
    mateIn: Option<int>
  )

  datatype Position = Position(fen: string, moveHistory: seq<string>, currentMove: int)

  /** The standard start position: initialPosition's FEN, and what `new Chess()` loads. */
  const StartFen := "rnbqkbnr/pppppppp/8/8/8/8/PPPPPPPP/RNBQKBNR w KQkq - 0 1"

  const InitialPosition := Position(StartFen, [], 0)

  /** Whether a call completed normally with a value or let an exception escape. */
  datatype Completion<T> = Returned(value: T) | Raised

  /** One replayed move: a rejected move leaves the game as it was; a throwing move aborts the replay. */
  function ReplayStep(js: ChessJs, fen: string, move: string): (r: Option<string>)
    ensures r.None? <==> js.move(fen, move).Threw?
    ensures js.move(fen, move).Moved? ==> r == Some(js.move(fen, move).fen)
    ensures js.move(fen, move).Rejected? ==> r == Some(fen)
  {
    match js.move(fen, move)
    case Moved(next) => Some(next)
    case Rejected => Some(fen)
    case Threw => None
  }

  /** The FEN after playing `moves` in order from `fen`, or None if chess.js threw on one of them. */
  function Replay(js: ChessJs, fen: string, moves: seq<string>): Option<string>
    decreases |moves|
  {
    if moves == [] then Some(fen)
    else
      match ReplayStep(js, fen, moves[0])
      case None => None
      case Some(next) => Replay(js, next, moves[1..])
  }

  /** Replaying a history extended by one move is replaying the history, then that move. */
  lemma {:induction false} ReplayAppend(js: ChessJs, fen: string, moves: seq<string>, move: string)
    ensures Replay(js, fen, moves + [move]) ==
              match Replay(js, fen, moves)
              case None => None
              case Some(f) => ReplayStep(js, f, move)
    decreases |moves|
  {
    if moves == [] {
      assert [] + [move] == [move];
      assert [move][1..] == [];
    } else {
      assert (moves + [move])[0] == moves[0];
      assert (moves + [move])[1..] == moves[1..] + [move];
      match ReplayStep(js, fen, moves[0])
      case None =>
      case Some(next) => ReplayAppend(js, next, moves[1..], move);
    }
  }

  /** The replay loop of undoMove: `new Chess()`, then `chess.move` for every move in order. */
  method ReplayFromStart(js: ChessJs, moves: seq<string>) returns (r: Option<string>)
    ensures r == Replay(js, StartFen, moves)
  {
    var fen := StartFen;
    var i := 0;
    while i < |moves|
      invariant 0 <= i <= |moves|
      invariant Replay(js, StartFen, moves) == Replay(js, fen, moves[i..])
    {
      assert moves[i..][0] == moves[i] && moves[i..][1..] == moves[i + 1..];
      var outcome := js.move(fen, moves[i]);
      if outcome.Threw? {
        return None;
      } else if outcome.Moved? {
        fen := outcome.fen;
      }
      i := i + 1;
    }
    return Some(fen);
  }

  /** The store is consistent with the start position when replaying its history reaches its FEN. */
  ghost predicate ReachedFromStart(js: ChessJs, p: Position)
  {
    Replay(js, StartFen, p.moveHistory) == Some(p.fen)
  }

  /**
   * A successful makeMove from a position reached from the start position gives a position that is
   * again reached from the start position.
   */
  lemma MakeMoveKeepsReached(js: ChessJs, p: Position, move: string, next: string)
    requires ReachedFromStart(js, p)
    requires js.move(p.fen, move) == Moved(next)
    ensures ReachedFromStart(js, Position(next, p.moveHistory + [move], p.currentMove + 1))
  {
    ReplayAppend(js, StartFen, p.moveHistory, move);
  }

  class ChessStore {
    var position: Position
    var analysis: Option<AnalysisResult>
    var isAnalyzing: bool

    /** The move counter always equals the number of moves in the history. */
    ghost predicate Valid()
      reads this
    {
      position.currentMove == |position.moveHistory|
    }

    constructor ()
      ensures position == InitialPosition && analysis == None && !isAnalyzing
      ensures Valid()
    {
      position := InitialPosition;
      analysis := None;
      isAnalyzing := false;
    }

    /**
     * makeMove: play `move` on the current FEN. On success record the new FEN, append the move and
     * count it, returning true; a rejected or throwing move returns false and changes nothing. A FEN
     * that chess.js cannot load makes the action itself throw, also changing nothing.
     */
    method MakeMove(js: ChessJs, move: string) returns (r: Completion<bool>)
      modifies this
      ensures !js.loads(old(position.fen)) ==> r == Raised && unchanged(this)
      ensures js.loads(old(position.fen)) && js.move(old(position.fen), move).Moved? ==>
                r == Returned(true)
                && position == Position(js.move(old(position.fen), move).fen,
                                        old(position.moveHistory) + [move], old(position.currentMove) + 1)
                && analysis == old(analysis) && isAnalyzing == old(isAnalyzing)
      ensures js.loads(old(position.fen)) && !js.move(old(position.fen), move).Moved? ==>
                r == Returned(false) && unchanged(this)
      ensures old(Valid()) ==> Valid()
    {
      if !js.loads(position.fen) {
        return Raised;
      }
      var outcome := js.move(position.fen, move);
      match outcome
      case Moved(next) =>
        position := Position(next, position.moveHistory + [move], position.currentMove + 1);
        r := Returned(true);
      case Rejected =>
        r := Returned(false);
      case Threw =>
        r := Returned(false);
    }

    /**
     * undoMove: with an empty history nothing happens. Otherwise drop the last move, replay the rest
     * from the standard start position and count one move less (never below zero). If chess.js
     * throws during the replay the action throws and nothing changes.
     */
    method UndoMove(js: ChessJs) returns (r: Completion<()>)
      modifies this
      ensures old(position.moveHistory) == [] ==> r == Returned(()) && unchanged(this)
      ensures old(position.moveHistory) != [] ==>
                var rest := old(position.moveHistory)[..|old(position.moveHistory)| - 1];
                match Replay(js, StartFen, rest)
                case None => r == Raised && unchanged(this)
                case Some(fen) =>
                  r == Returned(())
                  && position == Position(fen, rest, if old(position.currentMove) - 1 < 0 then 0
                                                     else old(position.currentMove) - 1)
                  && analysis == old(analysis) && isAnalyzing == old(isAnalyzing)
      ensures old(Valid()) ==> Valid()
    {
      if |position.moveHistory| == 0 {
        return Returned(());
      }
      var newHistory := position.moveHistory[..|position.moveHistory| - 1];
      var replayed := ReplayFromStart(js, newHistory);
      match replayed
      case None =>
        r := Raised;
      case Some(fen) =>
        var counter := if position.currentMove - 1 < 0 then 0 else position.currentMove - 1;
        position := Position(fen, newHistory, counter);
        r := Returned(());
    }

    /** setPosition: take any FEN as the new position with an empty history; analysis is untouched. */
    method SetPosition(fen: string)
      modifies this
      ensures position == Position(fen, [], 0)
      ensures analysis == old(analysis) && isAnalyzing == old(isAnalyzing)
      ensures Valid()
    {
      position := Position(fen, [], 0);
    }

    /** setAnalysis: replace the analysis and nothing else. */
    method SetAnalysis(a: Option<AnalysisResult>)
      modifies this
      ensures analysis == a
      ensures position == old(position) && isAnalyzing == old(isAnalyzing)
      ensures old(Valid()) ==> Valid()
    {
      analysis := a;
    }

    /** setAnalyzing: replace the flag and nothing else. */
    method SetAnalyzing(analyzing: bool)
      modifies this
      ensures isAnalyzing == analyzing
      ensures position == old(position) && analysis == old(analysis)
      ensures old(Valid()) ==> Valid()
    {
      isAnalyzing := analyzing;
    }

    /** reset: back to the initial position with no analysis and the flag cleared. */
    method Reset()
      modifies this
      ensures position == InitialPosition && analysis == None && !isAnalyzing
      ensures Valid()
    {
      position := InitialPosition;
      analysis := None;
      isAnalyzing := false;
    }
  }

  /**
   * Undo inverts makeMove: from a valid position reached from the start position, making a move and,
   * if it was played, undoing it leaves the position as it was.
   */
  method MakeMoveThenUndo(store: ChessStore, js: ChessJs, move: string) returns (played: bool)
    requires store.Valid() && ReachedFromStart(js, store.position)
    modifies store
    ensures store.position == old(store.position) && store.Valid()
    ensures store.analysis == old(store.analysis) && store.isAnalyzing == old(store.isAnalyzing)
    ensures played <==> js.loads(old(store.position.fen)) && js.move(old(store.position.fen), move).Moved?
  {
    var made := store.MakeMove(js, move);
    played := made == Returned(true);
    if played {
      var before := store.position.moveHistory;
      assert before[..|before| - 1] == old(store.position.moveHistory);
      var undone := store.UndoMove(js);
    }
  }

  /**
   * Undo forgets a position set with setPosition: after setPosition(fen), a move that is played and
   * then undone, the store is back at the standard start position, not at `fen`.
   */
  method SetPositionMoveUndo(store: ChessStore, js: ChessJs, fen: string, move: string) returns (played: bool)
    modifies store
    ensures played <==> js.loads(fen) && js.move(fen, move).Moved?
    ensures played ==> store.position == InitialPosition
    ensures !played ==> store.position == Position(fen, [], 0)
  {
    store.SetPosition(fen);
    var made := store.MakeMove(js, move);
    played := made == Returned(true);
    if played {
      assert store.position.moveHistory[..|store.position.moveHistory| - 1] == [];
      var undone := store.UndoMove(js);
    }
  }
}
