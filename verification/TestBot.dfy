/** The test-bot server action: one question answered against the cached
    knowledge snapshot, reported with the context, the model, the provider,
    the pages used and the elapsed time. The snapshot is the cache's current
    value and the two clock readings are inputs. */
module TestBot {
  import opened Wrappers
  import opened NotionPages
  import opened Ai

  datatype TestBotResult = TestBotResult(response: string, context: string, model: string, provider: string,
                                         notionPages: seq<string>, latency: int)

  function ProviderName(p: Provider): string {
    match p
    case Gemini => "Gemini"
    case Groq => "Groq"
  }

  /** `p.title || p.pageId`: an empty title counts as missing. */
  function PageLabel(p: NotionContext): (shown: string)
    ensures p.title != "" ==> shown == p.title
    ensures p.title == "" ==> shown == p.pageId
  {
    if p.title != "" then p.title else p.pageId
  }

  function PageLabels(pages: seq<NotionContext>): (labels: seq<string>)
    ensures |labels| == |pages|
    ensures forall i :: 0 <= i < |pages| ==> labels[i] == PageLabel(pages[i])
  {
    seq(|pages|, i requires 0 <= i < |pages| => PageLabel(pages[i]))
  }

  /** `testBotAction`. */
  function TestBotAction(message: string, snapshot: Snapshot, env: AiEnv,
                         gemini: GeminiRequest -> Result<string>,
                         groq: GroqRequest -> Result<Option<string>>,
                         start: int, end: int): (r: TestBotResult)
    ensures r.context == snapshot.combinedContext
    ensures var answer := GenerateAnswer(env, message, snapshot.combinedContext, gemini, groq);
            r.response == answer.text && r.model == answer.modelUsed && r.provider == ProviderName(answer.provider)
    ensures |r.notionPages| == |snapshot.pages|
    ensures forall i :: 0 <= i < |snapshot.pages| ==>
              r.notionPages[i] == (if snapshot.pages[i].title != "" then snapshot.pages[i].title
                                   else snapshot.pages[i].pageId)
    ensures r.latency == end - start
  {
    var answer := GenerateAnswer(env, message, snapshot.combinedContext, gemini, groq);
    TestBotResult(answer.text, snapshot.combinedContext, answer.modelUsed, ProviderName(answer.provider),
                  PageLabels(snapshot.pages), end - start)
  }

  /** With no page configured the test bot answers against the no-pages
      marker, lists no page, and its prompt carries the marker. */
  lemma TestBotWithoutPages(message: string, pageIdsEnv: Option<string>, fetch: string -> Option<NotionContext>,
                            now: int, env: AiEnv, gemini: GeminiRequest -> Result<string>,
                            groq: GroqRequest -> Result<Option<string>>, start: int, end: int)
    requires ParsePageIds(pageIdsEnv) == []
    ensures var r := TestBotAction(message, FillCache(pageIdsEnv, fetch, now), env, gemini, groq, start, end);
            r.context == NoPagesMarker && r.notionPages == [] &&
            r.response == GenerateAnswer(env, message, NoPagesMarker, gemini, groq).text
  {
  }

  /** When every configured page is fetched, the listed pages are the
      configured pages one for one, each named by its title, or by its id
      when the title is empty. */
  lemma TestBotListsFetchedPages(message: string, pageIdsEnv: Option<string>, fetch: string -> Option<NotionContext>,
                                 now: int, env: AiEnv, gemini: GeminiRequest -> Result<string>,
                                 groq: GroqRequest -> Result<Option<string>>, start: int, end: int)
    requires forall id :: id in ParsePageIds(pageIdsEnv) ==> fetch(id).Some?
    ensures var ids := ParsePageIds(pageIdsEnv);
            var r := TestBotAction(message, FillCache(pageIdsEnv, fetch, now), env, gemini, groq, start, end);
            |r.notionPages| == |ids| &&
            forall i :: 0 <= i < |ids| ==> r.notionPages[i] == PageLabel(fetch(ids[i]).value)
  {
    FetchedAllSucceed(ParsePageIds(pageIdsEnv), fetch);
  }
}
