# Opening trainer: a Dafny model of its service core

This project models the logic the opening trainer keeps around its foreign libraries:

- the backend **chess service** (`ChessBackend`, `ChessService.dfy`): fail-closed move validation,
  legal-move listing and move making over the rules library, and position analysis over one
  nullable engine handle that is re-created at most once per request;
- the frontend **chess store** (`FrontendStore`, `ChessStore.dfy`): a class holding the position
  (FEN, move history, move counter), the last analysis and the "analysing" flag, with the actions
  make move, undo, set position, set analysis, set analysing and reset;
- the **opening service** (`Openings`, `Openings.dfy`): the fixed lesson table, looked up by system
  name ignoring ASCII case, and the first-match search for a lesson by id;
- the **prompt construction** of the language-model explainer (`Ollama`, `OllamaPrompts.dfy`) and
  the policy that turns the client's outcome into a reply string.

The foreign libraries are oracles, datatypes of function values that callers pass in:
python-chess is `Rules<B, M>` over abstract board and move types (parse a FEN, parse a UCI move,
test a move's legality, list the generated legal moves, print a move, push, print a FEN); the
stockfish wrapper is `StockfishApi` (construct a handle from a path, or fail; run one
set-position/evaluate/best-move conversation, or raise); chess.js is `ChessJs` (whether a FEN
loads, and whether a move is played, rejected with null, or throws); the Ollama client is a
function from prompt to `ClientOutcome`. Exceptions raised by the libraries are oracle answers
(`None` from the parsers and from the engine constructor, `EngineRaised`, `Threw`,
`ResponseError`/`OtherError`); the exceptions `analyze_position` itself raises become `Result`
failures carrying the message; `None`/`null` values become `Option`.

The service has no lock or queue, no depth clamp (the `depth` argument is ignored), no health
check and no failed engine state: after an engine error the handle is kept as it is. A FEN is passed
to the engine unparsed; whether that yields a reply or an "Analysis failed: " error is up to the
engine. A mate score yields evaluation 0 and a mate distance; any evaluation type other than "cp"
or "mate" yields evaluation 0 and no mate distance. In the store, undo replays the remaining history
from the standard start position, so a position set with set position is lost by a move followed
by an undo.

## Model

| member | source | states |
|---|---|---|
| `ChessBackend.ValidateMove` | backend/app/services/chess_service.py:20-26 | false when the FEN or the UCI string fails to parse; otherwise true exactly when the library's legality test (`in board.legal_moves`) accepts the parsed move |
| `ChessBackend.UciAll` | backend/app/services/chess_service.py:31 | the list comprehension keeps one entry per move, in order, each the move's UCI form |
| `ChessBackend.GetLegalMoves` | backend/app/services/chess_service.py:28-33 | [] when the FEN fails to parse; otherwise exactly one UCI string per legal move, in the library's order |
| `ChessBackend.MakeMove` | backend/app/services/chess_service.py:60-69 | a FEN is returned exactly when validate_move accepts the move, and it is the FEN of the board after pushing the move; None otherwise |
| `ChessBackend.LegalMovesAreValid` | backend/app/services/chess_service.py:20-33 | every string get_legal_moves lists passes validate_move on the same FEN, given the library's UCI round trip and that generated moves pass its legality test |
| `ChessBackend.ValidMovesAreListed` | backend/app/services/chess_service.py:20-33 | no legal move is omitted: a move validate_move accepts appears in get_legal_moves, given that the generator lists every move the legality test accepts |
| `ChessBackend.EnginePath` | backend/app/services/chess_service.py:14 | the configured engine path unless it is None or empty, in which case "stockfish"; never empty |
| `ChessBackend.AnalysisOf` | backend/app/services/chess_service.py:49-56 | best move passed through; principal variation has length at most 1, is [best] when the best move is truthy and empty exactly when it is None or ""; mate_in is set only for "mate" and then equals the value; evaluation is value/100 for "cp" (0 when the value is missing) and 0 for every other type |
| `ChessBackend.AnalysisOutcome` | backend/app/services/chess_service.py:43-58 | an engine reply becomes the mapped result; an engine exception becomes an error whose message is "Analysis failed: " followed by the engine's message |
| `ChessBackend.ScoreAndMateExclusive` | backend/app/services/chess_service.py:51-56 | a successful analysis that carries a mate distance has evaluation 0 |
| `ChessBackend.ChessService.constructor` | backend/app/services/chess_service.py:8-10 | the service starts with the handle the engine constructor gives for the effective path (None if it raised), after one construction attempt and no query |
| `ChessBackend.ChessService.InitStockfish` | backend/app/services/chess_service.py:12-18 | never raises; the handle becomes what constructing the engine from the effective path gives, None when construction fails; one more construction attempt, no query |
| `ChessBackend.ChessService.AnalyzePosition` | backend/app/services/chess_service.py:35-58 | a present handle is kept and no construction is attempted; an absent one gets exactly one re-initialisation; if the handle is still None the result is "Stockfish engine not available" and the engine is not queried; otherwise the engine is queried once and the result is its mapped reply; nothing depends on depth |
| `FrontendStore.ReplayStep` | frontend/src/stores/chess.ts:60 | one replayed move: a played move gives its FEN, a rejected move keeps the FEN, a throwing move aborts |
| `FrontendStore.ReplayAppend` | frontend/src/stores/chess.ts:38-41 | replaying a history extended by one move is replaying the history and then that move |
| `FrontendStore.ReplayFromStart` | frontend/src/stores/chess.ts:56-60 | the replay loop from the standard start position yields the replay of the whole history, or None if chess.js threw |
| `FrontendStore.MakeMoveKeepsReached` | frontend/src/stores/chess.ts:37-43 | a successful move from a position whose FEN is the replay of its history gives a position with the same property |
| `FrontendStore.MakeMoveThenUndo` | frontend/src/stores/chess.ts:30-68 | from a valid position reached from the start position, make move followed (if it was played) by undo leaves the position, the analysis and the flag unchanged |
| `FrontendStore.SetPositionMoveUndo` | frontend/src/stores/chess.ts:52-79 | after set position with any FEN, a played move followed by undo returns to the standard start position, not to that FEN |
| `FrontendStore.ChessStore.constructor` | frontend/src/stores/chess.ts:19-28 | the store starts at the initial position (start FEN, empty history, counter 0) with no analysis and the flag false |
| `FrontendStore.ChessStore.MakeMove` | frontend/src/stores/chess.ts:30-50 | on success: new FEN, move appended, counter plus one, returns true, analysis untouched; a rejected or throwing move returns false and changes nothing; an unloadable FEN makes the action throw and changes nothing; keeps counter == history length |
| `FrontendStore.ChessStore.UndoMove` | frontend/src/stores/chess.ts:52-69 | empty history: nothing changes; otherwise the last entry is dropped, the FEN is the replay of the rest from the start position whatever FEN was set before, the counter is max(0, counter-1); a throwing replay changes nothing; keeps counter == history length |
| `FrontendStore.ChessStore.SetPosition` | frontend/src/stores/chess.ts:71-79 | the FEN is set, the history emptied and the counter zeroed; analysis and flag untouched |
| `FrontendStore.ChessStore.SetAnalysis` | frontend/src/stores/chess.ts:81-83 | only the analysis changes |
| `FrontendStore.ChessStore.SetAnalyzing` | frontend/src/stores/chess.ts:85-87 | only the flag changes |
| `FrontendStore.ChessStore.Reset` | frontend/src/stores/chess.ts:89-95 | back to the initial position, no analysis, flag false |
| `Openings.LessonsForSystem` | backend/app/services/opening_service.py:8-67 | the table entry under the ASCII-lower-cased name, [] otherwise |
| `Openings.LowerChar` | backend/app/services/opening_service.py:67 | ASCII upper-case letters move to lower case, every other character is kept; the result is never upper case |
| `Openings.Lower` | backend/app/services/opening_service.py:67 | lower-casing keeps the length and lower-cases every character |
| `Openings.LowerIdempotent` | backend/app/services/opening_service.py:67 | lower-casing twice is lower-casing once |
| `Openings.LowerAgreesIgnoringCase` | backend/app/services/opening_service.py:67 | names that differ only in letter case have the same lower-case form |
| `Openings.LessonsIgnoreCase` | backend/app/services/opening_service.py:67 | the lookup is case-insensitive: names that agree ignoring case get the same lessons, the same as their lower-case form |
| `Openings.UnknownSystemHasNoLessons` | backend/app/services/opening_service.py:67 | an unknown system yields the empty list |
| `Openings.LowerOfLowerCase` | backend/app/services/opening_service.py:67 | a key without upper-case letters is its own lower-case form |
| `Openings.KnownSystems` | backend/app/services/opening_service.py:10-65 | two Stonewall lessons (ids 1 and 2), one Torre and one Colle lesson (id 1) |
| `Openings.FindLesson` | backend/app/services/opening_service.py:71-74 | the result is None exactly when no lesson has the id; otherwise it is the first lesson in list order with that id |
| `Openings.LessonDetails` | backend/app/services/opening_service.py:69-74 | a returned lesson has the requested id and belongs to the system; None exactly when no lesson of the system has the id, so always for an unknown system |
| `Ollama.Layout` | backend/app/services/ollama_service.py:47-50 | on any base text: the prompt is the base, then the context section only when the context is non-empty, then the question, then the response cue, at the stated offsets |
| `Ollama.LayoutDeterminesQuestion` | backend/app/services/ollama_service.py:47-50 | on any base text, equal prompts with one context have equal questions |
| `Ollama.LayoutDeterminesContext` | backend/app/services/ollama_service.py:47-48 | on any base text, equal prompts with non-empty contexts have equal contexts |
| `Ollama.BuildChessPrompt` | backend/app/services/ollama_service.py:33-52 | every prompt starts with the fixed base prompt and ends with "\n\nResponse:"; a non-empty context sits after "\n\nContext: "; the question sits between "\n\nQuestion: " and the cue |
| `Ollama.EmptyContextIsAbsent` | backend/app/services/ollama_service.py:47-50 | an empty context builds the same prompt as no context |
| `Ollama.PromptDeterminesQuestion` | backend/app/services/ollama_service.py:47-50 | the question can be read back from the prompt |
| `Ollama.PromptDeterminesContext` | backend/app/services/ollama_service.py:47-48 | a non-empty context can be read back from the prompt |
| `Ollama.ReplyText` | backend/app/services/ollama_service.py:26-31 | the client's response text; "Sorry, I couldn't generate a response." when it has none; "Ollama error: " or "An error occurred: " followed by the message for the two kinds of exception; nothing is raised |
| `Ollama.GenerateResponse` | backend/app/services/ollama_service.py:10-31 | never raises: the client receives the built prompt and the reply is its response text, the "Sorry…" text, or a string starting with "Ollama error: " or "An error occurred: " |
| `Ollama.ExplainContext` | backend/app/services/ollama_service.py:56 | "Chess position (FEN): ", the FEN, a newline, "Opening system: ", the system |
| `Ollama.AnswerContext` | backend/app/services/ollama_service.py:63 | "Opening system: " followed by the system |
| `Ollama.ExplainPrompt` | backend/app/services/ollama_service.py:54-59 | the context section is always present and holds the position's context; the question is the fixed explanation request |
| `Ollama.AnswerPrompt` | backend/app/services/ollama_service.py:61-64 | the context section is always present and names the system; the user's question is passed through unchanged |
| `Ollama.ExplainPosition` | backend/app/services/ollama_service.py:54-59 | the reply is the policy applied to the client's outcome on the explanation prompt |
| `Ollama.AnswerOpeningQuestion` | backend/app/services/ollama_service.py:61-64 | the reply is the policy applied to the client's outcome on the question prompt |

## Left out

- ChessBackend.ValidMovesAreListed: assumes the move generator lists every move the legality test accepts; python-chess's legality test also accepts king-to-rook castling (such as "e1h1"), which the generator lists only as the king's two-square move, so for those moves validate_move and make_move accept a string get_legal_moves does not list.
- Move generation, FEN parsing and printing in python-chess and chess.js, the engine process and the
  Ollama client: foreign code, present only as oracles. Chess rules are not specified.
- The warning printed by `_init_stockfish` when the engine cannot be constructed: output only.
- `ChessService.AnalyzePosition`: the three engine calls (set position, evaluate, best move) are one
  oracle call, so the model does not say which of them raised.
- The engine's evaluation always carries a type here; a reply without one would raise a key error
  in the source and is not modelled.
- `OllamaService.is_available` (backend/app/services/ollama_service.py:66-72): a network probe that
  only turns an exception into false.
- The model name and sampling options sent to the Ollama client: configuration passed through unchanged.
- A `response` entry holding a non-string value: the client outcome carries a string or nothing.
- The unused database session of `OpeningService`.
- Lower-casing covers ASCII letters only, not Python's full Unicode `lower()`.
- Evaluations are exact reals (centipawns / 100), not IEEE floats.
- The asynchronous execution of the Python methods: nothing they await ever suspends, so each is one step.
- chess.js as a function of the FEN: a move's outcome depends only on the FEN of the game it is played on, while undo replays on one live game object; legality depends only on what the FEN encodes, so the live game's own history is not modelled.
- HTTP routing, React rendering, settings loading and structure checks: I/O glue outside this model.
