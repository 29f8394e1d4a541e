/** analysis_engine.py: prompt construction, the call to the generative
    model, and the process-wide engine instance.

    The Gemini SDK is an oracle: `generate` maps the prompt to the model's
    reply text, or to `Raised` when `generate_content` (or reading
    `response.text`) throws. */
module Analysis {
  import opened Wrappers
  import opened Text

  const ModelName := "gemini-1.5-flash"
  const MissingKeyMessage := "Gemini API key is not configured."
  const ErrorPrefix := "Error:"
  const EmptyDiffMessage := ErrorPrefix + " Diff text is empty. Cannot perform analysis."
  const ModelFailureMessage := ErrorPrefix + " The AI analysis failed. This could be due to a network issue or a problem with the AI service. Please try again later."

  /** The fixed review instructions that precede the diff. */
  const ReviewRubric :=
    "Act as a senior software engineer performing a code review. "
    + "Analyze the following code changes from a pull request diff. "
    + "Provide clear, actionable feedback. Focus on identifying potential bugs, security vulnerabilities, "
    + "violations of best practices, and areas for improvement in readability and maintainability.\n\n"
    + "Structure your review in markdown format with the following sections:\n"
    + "### Executive Summary\n"
    + "A brief, 2-3 sentence overview of the changes.\n\n"
    + "### Critical Issues\n"
    + "List any bugs, security risks, or major design flaws. If none, state 'None'.\n\n"
    + "### Suggestions for Improvement\n"
    + "List recommendations for code quality, performance, or maintainability.\n\n"
    + "### Positive Feedback\n"
    + "Mention what was done well.\n\n"
    + "### Quality Score\n"
    + "Provide a score from 1 to 100, where 100 is excellent.\n\n"
    + "---\n\n"
    + "**Code Diff to Analyze:**\n"
  const FenceOpen := "```diff\n"
  const FenceClose := "\n```"

  datatype ModelReply = Replied(text: string) | Raised

  /** Python truthiness of the configured key: `None` and "" are falsy. */
  predicate KeyConfigured(apiKey: Option<string>) {
    apiKey.Some? && apiKey.value != []
  }

  /** The results the web endpoint treats as failures. */
  predicate IsErrorResult(r: string) {
    StartsWith(r, ErrorPrefix)
  }

  /** An engine bound to one model. The source keeps only the model on the
      engine and hands the key to `genai.configure` (process-wide SDK
      state, not modelled); `apiKey` records the key the SDK was
      configured with when this engine was built. */
  class AnalysisEngine {
    const apiKey: string
    const model: string

    constructor (apiKey: string)
      requires apiKey != []
      ensures this.apiKey == apiKey && model == ModelName
    {
      this.apiKey := apiKey;
      model := ModelName;
    }
  }

  /** `AnalysisEngine(api_key)`: raises `ValueError` for a falsy key. */
  method NewAnalysisEngine(apiKey: Option<string>) returns (r: Result<AnalysisEngine, string>)
    ensures r.Failure? <==> !KeyConfigured(apiKey)
    ensures r.Failure? ==> r.error == MissingKeyMessage
    ensures r.Success? ==> fresh(r.value) && r.value.model == ModelName && apiKey == Some(r.value.apiKey)
  {
    if !KeyConfigured(apiKey) {
      r := Failure(MissingKeyMessage);
    } else {
      var engine := new AnalysisEngine(apiKey.value);
      r := Success(engine);
    }
  }

  /** `_generate_prompt`: the rubric, then the diff verbatim inside a
      `diff` fence. */
  function GeneratePrompt(diffText: string): (prompt: string) {
    ReviewRubric + FenceOpen + diffText + FenceClose
  }

  /** Reads the diff back out of a prompt. */
  function DiffOfPrompt(prompt: string): (diff: Option<string>) {
    var head := ReviewRubric + FenceOpen;
    if |prompt| >= |head| + |FenceClose| && prompt[..|head|] == head && prompt[|prompt| - |FenceClose|..] == FenceClose
    then Some(prompt[|head|..|prompt| - |FenceClose|])
    else None
  }

  /** The diff is embedded unaltered: it can be read back exactly, and the
      prompt is a fixed number of characters longer than the diff. */
  lemma PromptEmbedsDiff(diffText: string)
    ensures DiffOfPrompt(GeneratePrompt(diffText)) == Some(diffText)
    ensures |GeneratePrompt(diffText)| == |ReviewRubric| + |FenceOpen| + |diffText| + |FenceClose|
  {
    var head := ReviewRubric + FenceOpen;
    var p := GeneratePrompt(diffText);
    assert p == head + diffText + FenceClose;
    assert p[..|head|] == head;
    assert p[|p| - |FenceClose|..] == FenceClose;
    assert p[|head|..|p| - |FenceClose|] == diffText;
  }

  /** Different diffs give different prompts. */
  lemma PromptInjective(a: string, b: string)
    requires GeneratePrompt(a) == GeneratePrompt(b)
    ensures a == b
  {
    PromptEmbedsDiff(a);
    PromptEmbedsDiff(b);
  }

  /** `analyze_code_changes`: the empty-diff guard, then the model call with
      every exception mapped to one fixed message. */
  function AnalyzeCodeChanges(diffText: string, generate: string -> ModelReply): (r: string)
    ensures diffText == [] || generate(GeneratePrompt(diffText)).Raised? ==> IsErrorResult(r)
    ensures !IsErrorResult(r) ==> diffText != [] && generate(GeneratePrompt(diffText)) == Replied(r)
    ensures diffText != [] && generate(GeneratePrompt(diffText)).Replied? ==> r == generate(GeneratePrompt(diffText)).text
  {
    if diffText == [] then
      assert StartsWith(EmptyDiffMessage, ErrorPrefix);
      EmptyDiffMessage
    else
      match generate(GeneratePrompt(diffText))
      case Replied(text) => text
      case Raised =>
        assert StartsWith(ModelFailureMessage, ErrorPrefix);
        ModelFailureMessage
  }

  /** An empty diff yields the fixed message and the model is never asked. */
  lemma EmptyDiffSkipsModel(g1: string -> ModelReply, g2: string -> ModelReply)
    ensures AnalyzeCodeChanges([], g1) == AnalyzeCodeChanges([], g2) == EmptyDiffMessage
  {
  }

  /** The model is consulted only with the prompt for this diff. */
  lemma ModelSeesOnlyItsPrompt(diffText: string, g1: string -> ModelReply, g2: string -> ModelReply)
    requires g1(GeneratePrompt(diffText)) == g2(GeneratePrompt(diffText))
    ensures AnalyzeCodeChanges(diffText, g1) == AnalyzeCodeChanges(diffText, g2)
  {
  }

  /** Any failure of the model yields the fixed failure text. */
  lemma ModelFailureMessageFixed(diffText: string, generate: string -> ModelReply)
    requires diffText != [] && generate(GeneratePrompt(diffText)).Raised?
    ensures AnalyzeCodeChanges(diffText, generate) == ModelFailureMessage
  {
  }

  /** The module global `_analysis_engine` behind `get_analysis_engine`. */
  class EngineSlot {
    var engine: AnalysisEngine?

    constructor ()
      ensures engine == null
    {
      engine := null;
    }

    /** `get_analysis_engine`: builds the engine on the first successful
        call and hands out that same instance from then on. A failed
        construction leaves the slot empty. */
    method GetAnalysisEngine(apiKey: Option<string>) returns (r: Result<AnalysisEngine, string>)
      modifies this
      ensures old(engine) != null ==> r.Success? && r.value == old(engine) && engine == old(engine)
      ensures old(engine) == null && KeyConfigured(apiKey) ==>
                r.Success? && fresh(r.value) && engine == r.value && r.value.model == ModelName
      ensures old(engine) == null && !KeyConfigured(apiKey) ==> r == Failure(MissingKeyMessage) && engine == null
    {
      if engine == null {
        var created := NewAnalysisEngine(apiKey);
        if created.Success? {
          engine := created.value;
        }
        r := created;
      } else {
        r := Success(engine);
      }
    }

    /** Two calls never construct two engines: once one call has succeeded,
        every later call returns that instance. */
    method GetTwice(key1: Option<string>, key2: Option<string>) returns (first: Result<AnalysisEngine, string>, second: Result<AnalysisEngine, string>)
      modifies this
      ensures first.Success? ==> second.Success? && second.value == first.value && engine == first.value
    {
      first := GetAnalysisEngine(key1);
      second := GetAnalysisEngine(key2);
    }
  }
}
