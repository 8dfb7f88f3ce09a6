/**
 * The language-model explainer: the chess prompt wrapped around a question and an optional
 * context, the two entry points that build context and question, and the policy that turns the
 * client's outcome into a reply string. The Ollama client itself is an oracle.
 */
module Ollama {
  import opened Wrappers

  /** The fixed instructions every prompt starts with. */
  const BasePrompt: string :=
    "You are a chess instructor specializing in opening systems, particularly the Stonewall Attack, Torre System, and Colle System. \n"
    + "        \n"
    + "Your role is to:\n"
    + "- Explain chess opening principles clearly\n"
    + "- Analyze positions and suggest improvements\n"
    + "- Answer questions about opening theory\n"
    + "- Provide strategic advice for the three opening systems\n"
    + "- Help students understand typical plans and piece placements\n"
    + "\n"
    + "Keep your responses concise but informative, suitable for intermediate chess players learning these opening systems.\n"

  const ContextLabel := "\n\nContext: "
  const QuestionLabel := "\n\nQuestion: "
  const ResponseCue := "\n\nResponse:"

  /** Python truthiness of the optional context: None and "" are both falsy. */
  predicate HasContext(context: Option<string>)
  {
    context.Some? && context.value != ""
  }

  /** Where the context starts inside a prompt built on `base`. */
  function ContextStart(base: string): nat
  {
    |base| + |ContextLabel|
  }

  /** Where the question starts inside a prompt built on `base` with this context. */
  function QuestionStart(base: string, context: Option<string>): nat
  {
    if HasContext(context) then ContextStart(base) + |context.value| + |QuestionLabel|
    else |base| + |QuestionLabel|
  }

  /**
   * The layout of a prompt on any base text: the base, the context section when there is a context,
   * the question section, the response cue.
   */
  function Layout(base: string, question: string, context: Option<string>): (r: string)
    ensures |r| == QuestionStart(base, context) + |question| + |ResponseCue|
    ensures r[..|base|] == base
    ensures r[|r| - |ResponseCue|..] == ResponseCue
    ensures r[QuestionStart(base, context) - |QuestionLabel|..QuestionStart(base, context)] == QuestionLabel
    ensures r[QuestionStart(base, context)..|r| - |ResponseCue|] == question
    ensures HasContext(context) ==>
              r[|base|..ContextStart(base)] == ContextLabel
              && r[ContextStart(base)..ContextStart(base) + |context.value|] == context.value
  {
    if HasContext(context) then
      var r := base + ContextLabel + context.value + QuestionLabel + question + ResponseCue;
      var q := QuestionStart(base, context);
      assert r[..|base|] == base;
      assert r[|base|..ContextStart(base)] == ContextLabel;
      assert r[ContextStart(base)..ContextStart(base) + |context.value|] == context.value;
      assert r[q - |QuestionLabel|..q] == QuestionLabel;
      assert r[q..|r| - |ResponseCue|] == question;
      assert r[|r| - |ResponseCue|..] == ResponseCue;
      r
    else
      var r := base + QuestionLabel + question + ResponseCue;
      var q := QuestionStart(base, context);
      assert r[..|base|] == base;
      assert r[q - |QuestionLabel|..q] == QuestionLabel;
      assert r[q..|r| - |ResponseCue|] == question;
      assert r[|r| - |ResponseCue|..] == ResponseCue;
      r
  }

  /** On any base, the question can be read back from the prompt. */
  lemma LayoutDeterminesQuestion(base: string, q1: string, q2: string, context: Option<string>)
    requires Layout(base, q1, context) == Layout(base, q2, context)
    ensures q1 == q2
  {
    var p := Layout(base, q1, context);
    assert q1 == p[QuestionStart(base, context)..|p| - |ResponseCue|];
  }

  /** On any base, a non-empty context can be read back from the prompt. */
  lemma LayoutDeterminesContext(base: string, question: string, c1: string, c2: string)
    requires c1 != "" && c2 != ""
    requires Layout(base, question, Some(c1)) == Layout(base, question, Some(c2))
    ensures c1 == c2
  {
    var p := Layout(base, question, Some(c1));
    assert |c1| == |c2|;
    assert c1 == p[ContextStart(base)..ContextStart(base) + |c1|];
  }

  /**
   * _build_chess_prompt: the base prompt, then "Context: ..." when the context is present and
   * non-empty, then the question, then the response cue.
   */
  function BuildChessPrompt(question: string, context: Option<string>): (r: string)
    ensures |r| == QuestionStart(BasePrompt, context) + |question| + |ResponseCue|
    ensures r[..|BasePrompt|] == BasePrompt
    ensures r[|r| - |ResponseCue|..] == ResponseCue
    ensures r[QuestionStart(BasePrompt, context)..|r| - |ResponseCue|] == question
    ensures HasContext(context) ==>
              r[|BasePrompt|..ContextStart(BasePrompt)] == ContextLabel
              && r[ContextStart(BasePrompt)..ContextStart(BasePrompt) + |context.value|] == context.value
  {
    Layout(BasePrompt, question, context)
  }

  /** An empty context builds the same prompt as an absent one. */
  lemma EmptyContextIsAbsent(question: string)
    ensures BuildChessPrompt(question, Some("")) == BuildChessPrompt(question, None)
  {
  }

  /** The question can be read back from the prompt: two questions with one context never share a prompt. */
  lemma PromptDeterminesQuestion(q1: string, q2: string, context: Option<string>)
    requires BuildChessPrompt(q1, context) == BuildChessPrompt(q2, context)
    ensures q1 == q2
  {
    LayoutDeterminesQuestion(BasePrompt, q1, q2, context);
  }

  /** The context can be read back from the prompt, given the question. */
  lemma PromptDeterminesContext(question: string, c1: string, c2: string)
    requires c1 != "" && c2 != ""
    requires BuildChessPrompt(question, Some(c1)) == BuildChessPrompt(question, Some(c2))
    ensures c1 == c2
  {
    LayoutDeterminesContext(BasePrompt, question, c1, c2);
  }

  /** What the client's `generate` call did: returned a response dictionary, or raised. */
  datatype ClientOutcome =
    | Generated(response: Option<string>)  // the dictionary's "response" entry, if any
    | ResponseError(message: string)       // ollama.ResponseError
    | OtherError(message: string)          // any other exception

  const NoResponse := "Sorry, I couldn't generate a response."
  const OllamaErrorPrefix := "Ollama error: "
  const OtherErrorPrefix := "An error occurred: "

  /** The error-to-string policy of generate_response: every outcome becomes a reply, nothing is raised. */
  function ReplyText(outcome: ClientOutcome): (r: string)
    ensures outcome.Generated? && outcome.response.Some? ==> r == outcome.response.value
    ensures outcome.Generated? && outcome.response.None? ==> r == NoResponse
    ensures outcome.ResponseError? ==> OllamaErrorPrefix <= r && r[|OllamaErrorPrefix|..] == outcome.message
    ensures outcome.OtherError? ==> OtherErrorPrefix <= r && r[|OtherErrorPrefix|..] == outcome.message
  {
    match outcome
    case Generated(response) => if response.Some? then response.value else NoResponse
    case ResponseError(message) => OllamaErrorPrefix + message
    case OtherError(message) => OtherErrorPrefix + message
  }

  /** generate_response: send the built prompt to the client and turn its outcome into a reply. */
  function GenerateResponse(client: string -> ClientOutcome, prompt: string, context: Option<string>): (r: string)
    ensures var o := client(BuildChessPrompt(prompt, context));
            (o.Generated? && o.response.Some? && r == o.response.value)
            || r == NoResponse || OllamaErrorPrefix <= r || OtherErrorPrefix <= r
    ensures r == ReplyText(client(BuildChessPrompt(prompt, context)))
  {
    ReplyText(client(BuildChessPrompt(prompt, context)))
  }

  const ExplainQuestion :=
    "Please explain this chess position, including the key strategic ideas and typical plans for both sides."

  const FenLabel := "Chess position (FEN): "
  const SystemLabel := "Opening system: "

  /** The context explain_position sends: the FEN on one line, the opening system on the next. */
  function ExplainContext(fen: string, system: string): (c: string)
    ensures |c| == |FenLabel| + |fen| + 1 + |SystemLabel| + |system|
    ensures c[..|FenLabel|] == FenLabel
    ensures c[|FenLabel|..|FenLabel| + |fen|] == fen
    ensures c[|FenLabel| + |fen|] == '\n'
    ensures c[|FenLabel| + |fen| + 1..|c| - |system|] == SystemLabel
    ensures c[|c| - |system|..] == system
  {
    var c := FenLabel + fen + "\n" + SystemLabel + system;
    assert c[..|FenLabel|] == FenLabel;
    assert c[|FenLabel|..|FenLabel| + |fen|] == fen;
    assert c[|FenLabel| + |fen| + 1..|c| - |system|] == SystemLabel;
    assert c[|c| - |system|..] == system;
    c
  }

  /** The context answer_opening_question sends: the opening system alone. */
  function AnswerContext(system: string): (c: string)
    ensures |c| == |SystemLabel| + |system|
    ensures c[..|SystemLabel|] == SystemLabel
    ensures c[|SystemLabel|..] == system
  {
    var c := SystemLabel + system;
    assert c[..|SystemLabel|] == SystemLabel;
    c
  }

  /**
   * The prompt explain_position sends: its context is never empty, so the context section is always
   * present and holds the position's context, and the question is the fixed explanation request.
   */
  function ExplainPrompt(fen: string, system: string): (p: string)
    ensures var c := ExplainContext(fen, system);
            && |p| == QuestionStart(BasePrompt, Some(c)) + |ExplainQuestion| + |ResponseCue|
            && QuestionStart(BasePrompt, Some(c)) == ContextStart(BasePrompt) + |c| + |QuestionLabel|
            && p[..|BasePrompt|] == BasePrompt
            && p[|BasePrompt|..ContextStart(BasePrompt)] == ContextLabel
            && p[ContextStart(BasePrompt)..ContextStart(BasePrompt) + |c|] == c
            && p[QuestionStart(BasePrompt, Some(c))..|p| - |ResponseCue|] == ExplainQuestion
            && p[|p| - |ResponseCue|..] == ResponseCue
  {
    BuildChessPrompt(ExplainQuestion, Some(ExplainContext(fen, system)))
  }

  /**
   * The prompt answer_opening_question sends: the context section is always present and names the
   * opening system, and the user's question is passed through unchanged.
   */
  function AnswerPrompt(question: string, system: string): (p: string)
    ensures var c := AnswerContext(system);
            && |p| == QuestionStart(BasePrompt, Some(c)) + |question| + |ResponseCue|
            && QuestionStart(BasePrompt, Some(c)) == ContextStart(BasePrompt) + |c| + |QuestionLabel|
            && p[..|BasePrompt|] == BasePrompt
            && p[|BasePrompt|..ContextStart(BasePrompt)] == ContextLabel
            && p[ContextStart(BasePrompt)..ContextStart(BasePrompt) + |c|] == c
            && p[QuestionStart(BasePrompt, Some(c))..|p| - |ResponseCue|] == question
            && p[|p| - |ResponseCue|..] == ResponseCue
  {
    BuildChessPrompt(question, Some(AnswerContext(system)))
  }

  /** explain_position: ask the fixed question about the position through generate_response. */
  function ExplainPosition(client: string -> ClientOutcome, fen: string, system: string): (r: string)
    ensures r == ReplyText(client(ExplainPrompt(fen, system)))
  {
    GenerateResponse(client, ExplainQuestion, Some(ExplainContext(fen, system)))
  }

  /** answer_opening_question: pass the user's question through generate_response. */
  function AnswerOpeningQuestion(client: string -> ClientOutcome, question: string, system: string): (r: string)
    ensures r == ReplyText(client(AnswerPrompt(question, system)))
  {
    GenerateResponse(client, question, Some(AnswerContext(system)))
  }
}
