/**
 * The backend chess service: fail-closed move validation over the rules library, and
 * position analysis over one nullable engine handle that is re-created on demand.
 *
 * The rules library (python-chess) and the engine wrapper (stockfish) are foreign code;
 * both are modelled as oracles, datatypes of function values passed in by the caller.
 */
module ChessBackend {
  import opened Wrappers

  // ---------------------------------------------------------------------------
  // The rules library, as an oracle
  // ---------------------------------------------------------------------------

  /**
   * What the service uses of the rules library, for boards of type B and moves of type M.
   * `parseFen` and `parseUci` answer None where the library raises on a malformed string.
   * Containment (`move in board.legal_moves`) and iteration (`for move in board.legal_moves`) are
   * separate answers: the library decides the first with its own legality test.
   */
  datatype Rules<!B, !M> = Rules(
    parseFen: string -> Option<B>,   // chess.Board(fen)
    parseUci: string -> Option<M>,   // chess.Move.from_uci(move)
    isLegal: (B, M) -> bool,         // move in board.legal_moves
    legalMoves: B -> seq<M>,         // for move in board.legal_moves, in generation order
    uci: M -> string,                // move.uci()
    push: (B, M) -> B,               // board.push(move) on a copy
    fen: B -> string                 // board.fen()
  )

  /** The library's own round trip: printing a move in UCI form and parsing it back gives the move. */
  ghost predicate UciRoundTrips<B, M(!new)>(rules: Rules<B, M>)
  {
    forall m: M :: rules.parseUci(rules.uci(m)) == Some(m)
  }

  /** Every move the generator lists passes the library's legality test. */
  ghost predicate GeneratedMovesAreLegal<B(!new), M>(rules: Rules<B, M>)
  {
    forall b: B, k: int :: 0 <= k < |rules.legalMoves(b)| ==> rules.isLegal(b, rules.legalMoves(b)[k])
  }

  /** Every move that passes the library's legality test is listed by the generator. */
  ghost predicate LegalMovesAreGenerated<B(!new), M(!new)>(rules: Rules<B, M>)
  {
    forall b: B, m: M :: rules.isLegal(b, m) ==> exists k :: 0 <= k < |rules.legalMoves(b)| && rules.legalMoves(b)[k] == m
  }

  /** validate_move: false on any parse failure, otherwise the library's legality test. */
  function ValidateMove<B, M>(rules: Rules<B, M>, fen: string, move: string): (r: bool)
    ensures rules.parseFen(fen).None? ==> !r
    ensures rules.parseUci(move).None? ==> !r
    ensures r <==> rules.parseFen(fen).Some? && rules.parseUci(move).Some?
                   && rules.isLegal(rules.parseFen(fen).value, rules.parseUci(move).value)
  {
    match rules.parseFen(fen)
    case None => false
    case Some(board) =>
      match rules.parseUci(move)
      case None => false
      case Some(m) => rules.isLegal(board, m)
  }

  /** The list comprehension of get_legal_moves: the UCI form of each move, in order. */
  function UciAll<B, M>(rules: Rules<B, M>, moves: seq<M>): (r: seq<string>)
    ensures |r| == |moves|
    ensures forall i :: 0 <= i < |moves| ==> r[i] == rules.uci(moves[i])
  {
    if moves == [] then [] else [rules.uci(moves[0])] + UciAll(rules, moves[1..])
  }

  /** get_legal_moves: [] when the FEN does not parse, otherwise one UCI string per legal move. */
  function GetLegalMoves<B, M>(rules: Rules<B, M>, fen: string): (r: seq<string>)
    ensures rules.parseFen(fen).None? ==> r == []
    ensures rules.parseFen(fen).Some? ==>
              var legal := rules.legalMoves(rules.parseFen(fen).value);
              |r| == |legal| && forall i :: 0 <= i < |legal| ==> r[i] == rules.uci(legal[i])
  {
    match rules.parseFen(fen)
    case None => []
    case Some(board) => UciAll(rules, rules.legalMoves(board))
  }

  /** make_move: the FEN after the move when it is legal, None otherwise (including parse failures). */
  function MakeMove<B, M>(rules: Rules<B, M>, fen: string, move: string): (r: Option<string>)
    ensures r.Some? <==> ValidateMove(rules, fen, move)
    ensures r.Some? ==> r.value == rules.fen(rules.push(rules.parseFen(fen).value, rules.parseUci(move).value))
  {
    match rules.parseFen(fen)
    case None => None
    case Some(board) =>
      match rules.parseUci(move)
      case None => None
      case Some(m) => if rules.isLegal(board, m) then Some(rules.fen(rules.push(board, m))) else None
  }

  /**
   * Every string get_legal_moves lists passes validate_move on the same FEN, given that the library
   * round-trips UCI strings and that its generator lists only moves its legality test accepts.
   */
  lemma LegalMovesAreValid<B(!new), M(!new)>(rules: Rules<B, M>, fen: string, i: nat)
    requires UciRoundTrips(rules) && GeneratedMovesAreLegal(rules)
    requires i < |GetLegalMoves(rules, fen)|
    ensures ValidateMove(rules, fen, GetLegalMoves(rules, fen)[i])
  {
    var board := rules.parseFen(fen).value;
    var m := rules.legalMoves(board)[i];
    assert GetLegalMoves(rules, fen)[i] == rules.uci(m);
    assert rules.parseUci(rules.uci(m)) == Some(m);
  }

  /**
   * No legal move is omitted: a move validate_move accepts is listed by get_legal_moves, given that
   * the generator lists every move the legality test accepts.
   */
  lemma ValidMovesAreListed<B(!new), M(!new)>(rules: Rules<B, M>, fen: string, move: string)
    requires LegalMovesAreGenerated(rules)
    requires ValidateMove(rules, fen, move)
    ensures rules.uci(rules.parseUci(move).value) in GetLegalMoves(rules, fen)
  {
    var board := rules.parseFen(fen).value;
    var legal := rules.legalMoves(board);
    var m := rules.parseUci(move).value;
    assert rules.isLegal(board, m);
    var k :| 0 <= k < |legal| && legal[k] == m;
    assert GetLegalMoves(rules, fen)[k] == rules.uci(m);
  }

  // ---------------------------------------------------------------------------
  // The engine wrapper, as an oracle
  // ---------------------------------------------------------------------------

  /** The engine's evaluation dictionary: its "type" ("cp", "mate", ...) and its "value" if present. */
  datatype Evaluation = Evaluation(kind: string, value: Option<int>)

  /** What one conversation with the engine (set the position, evaluate, ask the best move) yields. */
  datatype EngineReply =
    | Replied(evaluation: Evaluation, bestMove: Option<string>)
    | EngineRaised(message: string)

  /** A live engine handle; `path` is the executable it was started from, `session` tells handles apart. */
  datatype Engine = Engine(path: string, session: nat)

  /**
   * The engine wrapper as the outside world answers it at the time of a call: `spawn` constructs a
   * handle from an executable path (None where the constructor raises), `query` runs
   * set_fen_position, get_evaluation and get_best_move for a FEN.
   */
  datatype StockfishApi = StockfishApi(
    spawn: string -> Option<Engine>,
    query: (Engine, string) -> EngineReply
  )

  /** The analysis dictionary returned to the HTTP layer. */
  datatype Analysis = Analysis(
    evaluation: real,
    bestMove: Option<string>,
    principalVariation: seq<string>,
    mateIn: Option<int>
  )

  const DefaultEnginePath := "stockfish"
  const EngineUnavailable := "Stockfish engine not available"
  const AnalysisFailedPrefix := "Analysis failed: "

  /** `settings.stockfish_path or "stockfish"`: the configured path unless it is None or empty. */
  function EnginePath(configured: Option<string>): (path: string)
    ensures path != ""
    ensures configured.Some? && configured.value != "" ==> path == configured.value
    ensures configured.None? || configured.value == "" ==> path == DefaultEnginePath
  {
    if configured.Some? && configured.value != "" then configured.value else DefaultEnginePath
  }

  /** Python truthiness of the best move: None and "" are both falsy. */
  predicate HasBestMove(best: Option<string>)
  {
    best.Some? && best.value != ""
  }

  /** The result dictionary built from the engine's evaluation and best move. */
  function AnalysisOf(evaluation: Evaluation, best: Option<string>): (a: Analysis)
    ensures a.bestMove == best
    ensures |a.principalVariation| <= 1
    ensures a.principalVariation == [] <==> !HasBestMove(best)
    ensures HasBestMove(best) ==> a.principalVariation == [best.value]
    ensures a.mateIn.Some? ==> evaluation.kind == "mate" && a.mateIn == evaluation.value
    ensures evaluation.kind == "mate" ==> a.mateIn == evaluation.value && a.evaluation == 0.0
    ensures evaluation.kind == "cp" ==>
              a.evaluation == (if evaluation.value.Some? then evaluation.value.value else 0) as real / 100.0
    ensures evaluation.kind != "cp" ==> a.evaluation == 0.0
  {
    Analysis(
      if evaluation.kind == "cp" then
        (match evaluation.value case Some(v) => v case None => 0) as real / 100.0
      else 0.0,
      best,
      if HasBestMove(best) then [best.value] else [],
      if evaluation.kind == "mate" then evaluation.value else None)
  }

  /** The outcome of analysing with a live engine: the mapped reply, or the engine's error re-raised. */
  function AnalysisOutcome(reply: EngineReply): (r: Result<Analysis, string>)
    ensures reply.Replied? ==> r == Success(AnalysisOf(reply.evaluation, reply.bestMove))
    ensures reply.EngineRaised? ==> r.Failure? && AnalysisFailedPrefix <= r.error
                                    && r.error[|AnalysisFailedPrefix|..] == reply.message
  {
    match reply
    case Replied(e, b) => Success(AnalysisOf(e, b))
    case EngineRaised(msg) => Failure(AnalysisFailedPrefix + msg)
  }

  /** A successful analysis never carries both a non-zero score and a mate distance. */
  lemma ScoreAndMateExclusive(reply: EngineReply)
    requires AnalysisOutcome(reply).Success?
    ensures var a := AnalysisOutcome(reply).value; a.mateIn.Some? ==> a.evaluation == 0.0
  {
  }

  // ---------------------------------------------------------------------------
  // The service object
  // ---------------------------------------------------------------------------

  /**
   * ChessService owns one nullable engine handle. The ghost counters record how often the
   * service tried to construct an engine and how often it queried one.
   */
  class ChessService {
    const stockfishPath: Option<string>
    var engine: Option<Engine>
    ghost var spawnAttempts: nat
    ghost var engineQueries: nat

    /** __init__: start with no handle, then try once to construct the engine. */
    constructor (stockfishPath: Option<string>, api: StockfishApi)
      ensures this.stockfishPath == stockfishPath
      ensures engine == api.spawn(EnginePath(stockfishPath))
      ensures spawnAttempts == 1 && engineQueries == 0
    {
      this.stockfishPath := stockfishPath;
      engine := None;
      spawnAttempts, engineQueries := 0, 0;
      new;
      InitStockfish(api);
    }

    /**
     * _init_stockfish: construct an engine from the configured path (or "stockfish"); a constructor
     * that raises leaves the handle None. It never raises itself.
     */
    method InitStockfish(api: StockfishApi)
      modifies this
      ensures engine == api.spawn(EnginePath(stockfishPath))
      ensures spawnAttempts == old(spawnAttempts) + 1
      ensures engineQueries == old(engineQueries)
    {
      var path := EnginePath(stockfishPath);
      spawnAttempts := spawnAttempts + 1;
      var spawned := api.spawn(path);
      match spawned
      case Some(e) => engine := Some(e);
      case None => engine := None;
    }

    /**
     * analyze_position: at most one re-initialisation when the handle is None; if it is still None,
     * fail with "Stockfish engine not available" without querying; otherwise query the engine once
     * and map its reply. `depth` is accepted and ignored.
     */
    method AnalyzePosition(fen: string, depth: int, api: StockfishApi) returns (r: Result<Analysis, string>)
      modifies this
      ensures old(engine).Some? ==> engine == old(engine) && spawnAttempts == old(spawnAttempts)
      ensures old(engine).None? ==>
                engine == api.spawn(EnginePath(stockfishPath)) && spawnAttempts == old(spawnAttempts) + 1
      ensures engine.None? ==> r == Failure(EngineUnavailable) && engineQueries == old(engineQueries)
      ensures engine.Some? ==>
                r == AnalysisOutcome(api.query(engine.value, fen)) && engineQueries == old(engineQueries) + 1
    {
      if engine.None? {
        InitStockfish(api);
      }
      if engine.None? {
        return Failure(EngineUnavailable);
      }
      engineQueries := engineQueries + 1;
      var reply := api.query(engine.value, fen);
      match reply
      case EngineRaised(msg) =>
        r := Failure(AnalysisFailedPrefix + msg);
      case Replied(evaluation, best) =>
        r := Success(AnalysisOf(evaluation, best));
    }
  }
}
