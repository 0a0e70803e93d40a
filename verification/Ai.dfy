/** `generateAnswer`: one system prompt around the knowledge context, the
    primary provider (Gemini) first, the fallback provider (Groq) when the
    primary fails, and an apology carrying both error messages when both
    fail. The two SDK calls are inputs: each maps the request it is given to
    the text it returned or the message of the error it threw. */
module Ai {
  import opened Wrappers
  import opened Text

  datatype Provider = Gemini | Groq

  /** What `generateAnswer` returns. */
  datatype AiResponse = AiResponse(text: string, modelUsed: string, provider: Provider)

  /** The environment variables read by the module, `None` when unset. */
  datatype AiEnv = AiEnv(googleApiKey: Option<string>, geminiModelName: Option<string>,
                         groqApiKey: Option<string>, groqModelName: Option<string>,
                         aiTemperature: Option<string>)

  /** The sampling temperature: `parseFloat` of the given text, left
      uninterpreted. */
  datatype Temperature = ParsedFloat(source: string)

  /** The request handed to Gemini: model, temperature and the two content
      parts (system prompt, then the user's query). */
  datatype GeminiRequest = GeminiRequest(model: string, temperature: Temperature, systemPrompt: string, query: string)

  /** The request handed to Groq: model, temperature, the system message and
      the user message. */
  datatype GroqRequest = GroqRequest(model: string, temperature: Temperature, systemMessage: string, userMessage: string)

  /** `process.env.X || fallback`: an unset or empty variable gives the fallback. */
  function EnvOr(v: Option<string>, fallback: string): (r: string)
    ensures r == fallback || (v.Some? && r == v.value && r != "")
    ensures v.Some? && v.value != "" ==> r == v.value
  {
    if v.Some? && v.value != "" then v.value else fallback
  }

  function GeminiModelName(env: AiEnv): string { EnvOr(env.geminiModelName, "gemini-1.5-flash") }
  function GroqModelName(env: AiEnv): string { EnvOr(env.groqModelName, "gemma2-9b-it") }
  function AiTemperature(env: AiEnv): Temperature { ParsedFloat(EnvOr(env.aiTemperature, "0.0")) }

  const OpenTag: string := "<NotionContext>\n"
  const CloseTag: string := "\n</NotionContext>"

  /** The system prompt before the opening context tag. */
  const PromptIntro: string :=
    "\nYou are a helpful and intelligent AI assistant dealing with student questions.\n" +
    "Your knowledge comes from the following Notion context:\n\n"

  /** The system prompt after the closing context tag. */
  const PromptInstructions: string :=
    "\n\nInstructions:\n" +
    "1. Answer the user's question based *primarily* on the Notion Context provided.\n" +
    "2. If the answer is not in the context, use your general knowledge but mention that this specific info might not be in the school's Notion documents.\n" +
    "3. Be polite, concise, and helpful.\n" +
    "4. Use Traditional Chinese (繁體中文) for all responses.\n"

  /** A prompt of the shape intro, opening tag, context, closing tag,
      instructions: the context sits verbatim between the two tags. */
  function Framed(intro: string, context: string, instructions: string): (prompt: string)
    ensures |prompt| == |intro| + |OpenTag| + |context| + |CloseTag| + |instructions|
    ensures OccursAt(OpenTag, prompt, |intro|)
    ensures OccursAt(context, prompt, |intro| + |OpenTag|)
    ensures OccursAt(CloseTag, prompt, |intro| + |OpenTag| + |context|)
  {
    var prompt := intro + OpenTag + context + CloseTag + instructions;
    PiecesOccur(intro, OpenTag, context, CloseTag, instructions);
    prompt
  }

  /** The system prompt: the fixed introduction and instructions around
      the tagged context. */
  function SystemPrompt(context: string): string {
    Framed(PromptIntro, context, PromptInstructions)
  }

  /** The system prompt holds the context verbatim between the opening and
      the closing tag. */
  lemma SystemPromptHoldsContext(context: string)
    ensures OccursAt(OpenTag, SystemPrompt(context), |PromptIntro|)
    ensures OccursAt(context, SystemPrompt(context), |PromptIntro| + |OpenTag|)
    ensures OccursAt(CloseTag, SystemPrompt(context), |PromptIntro| + |OpenTag| + |context|)
  {
  }

  /** Different contexts give different prompts. */
  lemma SystemPromptInjective(c1: string, c2: string)
    requires SystemPrompt(c1) == SystemPrompt(c2)
    ensures c1 == c2
  {
    var p := SystemPrompt(c1);
    SystemPromptHoldsContext(c1);
    SystemPromptHoldsContext(c2);
    assert |c1| == |c2|;
    assert OccursAt(c1, p, |PromptIntro| + |OpenTag|) && OccursAt(c2, p, |PromptIntro| + |OpenTag|);
  }

  const MissingGoogleKey: string := "GOOGLE_API_KEY is missing"
  const MissingGroqKey: string := "GROQ_API_KEY is missing"

  /** The start of the reply when both providers fail. */
  const Apology: string := "抱歉，系統目前忙碌中 (AI Service Unavailable)。"
  const PrimaryLabel: string := "\n\n[Primary Error]: "
  const FallbackLabel: string := "\n\n[Fallback Error]: "

  /** The Gemini request: the configured model and temperature, the system
      prompt around the context, then the query. */
  function PrimaryRequest(env: AiEnv, query: string, context: string): (r: GeminiRequest)
    ensures r.model == GeminiModelName(env) && r.temperature == AiTemperature(env)
    ensures r.query == query && OccursAt(context, r.systemPrompt, |PromptIntro| + |OpenTag|)
  {
    GeminiRequest(GeminiModelName(env), AiTemperature(env), SystemPrompt(context), query)
  }

  /** The Groq request: the configured model and temperature, the system
      prompt as system message and the query as user message. */
  function FallbackRequest(env: AiEnv, query: string, context: string): (r: GroqRequest)
    ensures r.model == GroqModelName(env) && r.temperature == AiTemperature(env)
    ensures r.userMessage == query && OccursAt(context, r.systemMessage, |PromptIntro| + |OpenTag|)
  {
    GroqRequest(GroqModelName(env), AiTemperature(env), SystemPrompt(context), query)
  }

  /** The primary attempt: a missing key is an error thrown before the call. */
  function PrimaryOutcome(env: AiEnv, query: string, context: string,
                          gemini: GeminiRequest -> Result<string>): (r: Result<string>)
    ensures EnvOr(env.googleApiKey, "") == "" ==> r == Err(MissingGoogleKey)
    ensures EnvOr(env.googleApiKey, "") != "" ==> r == gemini(PrimaryRequest(env, query, context))
  {
    if EnvOr(env.googleApiKey, "") == "" then Err(MissingGoogleKey)
    else gemini(PrimaryRequest(env, query, context))
  }

  /** The fallback attempt: Groq answers with the content of its first
      choice, `None` when there is no choice, message or content. */
  function FallbackOutcome(env: AiEnv, query: string, context: string,
                           groq: GroqRequest -> Result<Option<string>>): (r: Result<Option<string>>)
    ensures EnvOr(env.groqApiKey, "") == "" ==> r == Err(MissingGroqKey)
    ensures EnvOr(env.groqApiKey, "") != "" ==> r == groq(FallbackRequest(env, query, context))
  {
    if EnvOr(env.groqApiKey, "") == "" then Err(MissingGroqKey)
    else groq(FallbackRequest(env, query, context))
  }

  /** The reply when both providers fail. */
  function FailureText(primaryError: string, fallbackError: string): (r: string)
    ensures |r| == |Apology| + |PrimaryLabel| + |primaryError| + |FallbackLabel| + |fallbackError|
    ensures OccursAt(Apology, r, 0)
    ensures OccursAt(PrimaryLabel, r, |Apology|)
    ensures OccursAt(FallbackLabel, r, |Apology| + |PrimaryLabel| + |primaryError|)
  {
    PiecesOccur(Apology, PrimaryLabel, primaryError, FallbackLabel, fallbackError);
    Apology + PrimaryLabel + primaryError + FallbackLabel + fallbackError
  }

  /** `generateAnswer`. It always returns (the source catches both
      failures) and asks each provider at most once. */
  function GenerateAnswer(env: AiEnv, query: string, context: string,
                          gemini: GeminiRequest -> Result<string>,
                          groq: GroqRequest -> Result<Option<string>>): (r: AiResponse)
    ensures PrimaryOutcome(env, query, context, gemini).Ok? ==>
              r == AiResponse(PrimaryOutcome(env, query, context, gemini).value, GeminiModelName(env), Gemini)
    ensures r.provider == Groq <==>
              PrimaryOutcome(env, query, context, gemini).Err? && FallbackOutcome(env, query, context, groq).Ok?
    ensures PrimaryOutcome(env, query, context, gemini).Err? && FallbackOutcome(env, query, context, groq).Err? ==>
              r == AiResponse(FailureText(PrimaryOutcome(env, query, context, gemini).message,
                                          FallbackOutcome(env, query, context, groq).message), "none", Gemini)
  {
    match PrimaryOutcome(env, query, context, gemini)
    case Ok(text) => AiResponse(text, GeminiModelName(env), Gemini)
    case Err(primaryError) =>
      match FallbackOutcome(env, query, context, groq)
      case Ok(content) =>
        AiResponse(if content.Some? then content.value else "", GroqModelName(env), Groq)
      case Err(fallbackError) =>
        AiResponse(FailureText(primaryError, fallbackError), "none", Gemini)
  }

  // ---------------------------------------------------------------------
  // Properties
  // ---------------------------------------------------------------------

  /** A primary success is returned as is and Groq is never consulted: any
      two Groq behaviours give the same answer. */
  lemma PrimarySuccessSkipsFallback(env: AiEnv, query: string, context: string,
                                    gemini: GeminiRequest -> Result<string>,
                                    groq1: GroqRequest -> Result<Option<string>>,
                                    groq2: GroqRequest -> Result<Option<string>>)
    requires EnvOr(env.googleApiKey, "") != ""
    requires gemini(PrimaryRequest(env, query, context)).Ok?
    ensures GenerateAnswer(env, query, context, gemini, groq1) == GenerateAnswer(env, query, context, gemini, groq2)
    ensures GenerateAnswer(env, query, context, gemini, groq1) ==
              AiResponse(gemini(PrimaryRequest(env, query, context)).value, GeminiModelName(env), Gemini)
  {
  }

  /** Without a Google key Gemini is never consulted and the answer is the
      fallback's. */
  lemma MissingGoogleKeyFallsBack(env: AiEnv, query: string, context: string,
                                  gemini1: GeminiRequest -> Result<string>,
                                  gemini2: GeminiRequest -> Result<string>,
                                  groq: GroqRequest -> Result<Option<string>>)
    requires EnvOr(env.googleApiKey, "") == ""
    ensures GenerateAnswer(env, query, context, gemini1, groq) == GenerateAnswer(env, query, context, gemini2, groq)
    ensures GenerateAnswer(env, query, context, gemini1, groq).provider == Groq <==> FallbackOutcome(env, query, context, groq).Ok?
  {
  }

  /** After a primary failure, a fallback success is returned with Groq's
      model and its first choice's content, or "" when there is none. */
  lemma FallbackSuccess(env: AiEnv, query: string, context: string,
                        gemini: GeminiRequest -> Result<string>,
                        groq: GroqRequest -> Result<Option<string>>)
    requires PrimaryOutcome(env, query, context, gemini).Err?
    requires EnvOr(env.groqApiKey, "") != "" && groq(FallbackRequest(env, query, context)).Ok?
    ensures var content := groq(FallbackRequest(env, query, context)).value;
            GenerateAnswer(env, query, context, gemini, groq) ==
              AiResponse(if content.Some? then content.value else "", GroqModelName(env), Groq)
  {
  }

  /** The failure reply is the apology followed by the primary error and
      then the fallback error, each verbatim after its label. */
  lemma FailureTextReportsBoth(e1: string, e2: string)
    ensures OccursAt(Apology, FailureText(e1, e2), 0)
    ensures OccursAt(PrimaryLabel, FailureText(e1, e2), |Apology|)
    ensures OccursAt(e1, FailureText(e1, e2), |Apology| + |PrimaryLabel|)
    ensures OccursAt(FallbackLabel, FailureText(e1, e2), |Apology| + |PrimaryLabel| + |e1|)
    ensures OccursAt(e2, FailureText(e1, e2), |Apology| + |PrimaryLabel| + |e1| + |FallbackLabel|)
  {
    PiecesOccur(Apology, PrimaryLabel, e1, FallbackLabel, e2);
  }

  /** When both providers fail, the reply reports both errors in order and
      no model. */
  lemma TotalFailureReportsBoth(env: AiEnv, query: string, context: string,
                                gemini: GeminiRequest -> Result<string>,
                                groq: GroqRequest -> Result<Option<string>>)
    requires PrimaryOutcome(env, query, context, gemini).Err?
    requires FallbackOutcome(env, query, context, groq).Err?
    ensures var r := GenerateAnswer(env, query, context, gemini, groq);
            var e1 := PrimaryOutcome(env, query, context, gemini).message;
            var e2 := FallbackOutcome(env, query, context, groq).message;
            && r.modelUsed == "none" && r.provider == Gemini
            && OccursAt(Apology, r.text, 0)
            && OccursAt(PrimaryLabel, r.text, |Apology|)
            && OccursAt(e1, r.text, |Apology| + |PrimaryLabel|)
            && OccursAt(FallbackLabel, r.text, |Apology| + |PrimaryLabel| + |e1|)
            && OccursAt(e2, r.text, |Apology| + |PrimaryLabel| + |e1| + |FallbackLabel|)
  {
    var e1 := PrimaryOutcome(env, query, context, gemini).message;
    var e2 := FallbackOutcome(env, query, context, groq).message;
    assert GenerateAnswer(env, query, context, gemini, groq) == AiResponse(FailureText(e1, e2), "none", Gemini);
    FailureTextReportsBoth(e1, e2);
  }

  /** With neither key set, the reply names both missing keys. */
  lemma NoKeysReply(env: AiEnv, query: string, context: string,
                    gemini: GeminiRequest -> Result<string>,
                    groq: GroqRequest -> Result<Option<string>>)
    requires EnvOr(env.googleApiKey, "") == "" && EnvOr(env.groqApiKey, "") == ""
    ensures GenerateAnswer(env, query, context, gemini, groq).text == FailureText(MissingGoogleKey, MissingGroqKey)
  {
  }

  /** Both providers receive the same system prompt, query and temperature,
      and the prompt holds the context. */
  lemma ProvidersShareRequest(env: AiEnv, query: string, context: string)
    ensures PrimaryRequest(env, query, context).systemPrompt == FallbackRequest(env, query, context).systemMessage
    ensures PrimaryRequest(env, query, context).query == FallbackRequest(env, query, context).userMessage == query
    ensures PrimaryRequest(env, query, context).temperature == FallbackRequest(env, query, context).temperature
    ensures OccursAt(context, PrimaryRequest(env, query, context).systemPrompt, |PromptIntro| + |OpenTag|)
  {
  }
}
