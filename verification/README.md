# LINE tutor bot: answer pipeline

A Dafny model of the answer pipeline of a LINE chat bot that answers student
questions from Notion pages. The bot does four things:

1. It builds one knowledge context from the Notion pages listed in
   `NOTION_PAGE_IDS`. Pages that fail to load are dropped. With no page
   listed, the context is a fixed marker text.
2. It answers a question with Gemini first and Groq as the fallback. When
   both fail, the reply is an apology that quotes both error messages.
3. It keeps a per-user chat session in a Notion table, with mode `AI` or
   `Human`. The admin can flip the mode, and the write is an upsert.
4. It serves the LINE webhook: it checks the channel secret and the
   signature, then sends one generated reply per text-message event. The
   test-bot page shows one answer together with the context behind it.

Every call into an SDK is an input to the model. This covers the Notion
client, the Markdown converter, Gemini, Groq, LINE's signature check and
reply API, JSON parsing of the request, and the clock. Each such call is
either a function from its request to `Ok(value)` / `Err(message)`, or a
plain value. So every operation is a deterministic function or method.

Modules, one per concern:

- `Wrappers`: `Option` and `Result`.
- `Text`: JavaScript `split`, `join` and `trim`.
- `NotionPages`: page ids, page title, page fetch and the cache fill
  (src/lib/notion.ts).
- `NotionConfig`: `getSystemConfig` (src/lib/notion.ts).
- `NotionSessions`: the session table as a class over a map
  (src/lib/notion.ts).
- `Ai`: `generateAnswer` (src/lib/ai.ts).
- `LineWebhook`: the webhook `POST` (src/app/api/line/route.ts).
- `AdminActions`: src/app/admin/actions.ts.
- `TestBot`: src/app/test-bot/actions.ts.

## Model

| member | source | states |
|---|---|---|
| `Text.Split` | src/lib/notion.ts:31 | `split(',')` always yields at least one part, no part holds the separator, and joining the parts with the separator gives back the input |
| `Text.SplitJoin` | src/lib/notion.ts:31 | splitting undoes joining when no part holds the separator |
| `Text.TrimStart` | src/lib/notion.ts:31 | the result is a suffix of the input, and everything cut off before it is whitespace; the result does not start with whitespace |
| `Text.TrimEnd` | src/lib/notion.ts:31 | the result is a prefix of the input, and everything cut off after it is whitespace; the result does not end with whitespace |
| `Text.JoinContainsPart` | src/lib/notion.ts:94 | every part occurs verbatim in the joined string |
| `Text.Trim` | src/lib/notion.ts:31 | `trim()` returns a contiguous stretch of the input with only whitespace before and after it, and with no whitespace at either end itself; it introduces no character, and leaves an already-trimmed string unchanged |
| `NotionPages.CleanIds` | src/lib/notion.ts:31 | trimmed segments, blank ones dropped: every id is non-empty and trimmed, and comma-free segments give comma-free ids |
| `NotionPages.ParsePageIds` | src/lib/notion.ts:28-32 | an unset or empty variable gives no ids; every id returned is non-empty, trimmed and comma-free |
| `NotionPages.CleanIdsAppend` | src/lib/notion.ts:31 | segments are cleaned one by one, so their order is kept |
| `NotionPages.CleanIdsSingle` | src/lib/notion.ts:31 | a blank segment is dropped; any other segment contributes exactly its trimmed text |
| `NotionPages.ParsePageIdsRoundTrip` | src/lib/notion.ts:28-32 | well-formed ids joined with commas are read back exactly, in order |
| `NotionPages.FirstTitleProperty` | src/lib/notion.ts:47 | `find` returns the first property of type "title", or nothing when there is none |
| `NotionPages.ExtractTitle` | src/lib/notion.ts:43-53 | the scan that starts from "Untitled" and overwrites the title returns exactly the title rule `PageTitle` |
| `NotionPages.PageTitleRules` | src/lib/notion.ts:44-53 | the four outcomes of the title rule (`PageTitle`): no properties gives "Untitled"; a first title property with items gives their joined text; when the first title property is missing or has no items, a non-empty emoji icon gives "<emoji> Page", and no emoji or an empty one gives "Untitled" |
| `NotionPages.FetchPage` | src/lib/notion.ts:38-69 | a page is returned exactly when both Notion calls succeed, with its own id, its Markdown, its title and the read time; otherwise `null` |
| `NotionPages.NotionFetcher` | src/lib/notion.ts:38-69 | the fetcher built from the two Notion calls returns a page exactly for the ids both calls succeed on, and every page it returns carries the id it was asked for |
| `NotionPages.Fetched` | src/lib/notion.ts:88-90 | the surviving pages are never more than the configured ids |
| `NotionPages.FillCache` | src/lib/notion.ts:77-101 | no configured id gives the marker context, no pages and no fetch time; otherwise the pages are the successful fetches in configured order and the context is built from them |
| `NotionPages.FillWithoutPages` | src/lib/notion.ts:79-86 | with no configured id the fill does not depend on the fetcher at all, so nothing is fetched, and the context is "No Notion pages configured." |
| `NotionPages.FetchedOnlyConfigured` | src/lib/notion.ts:88 | the fill depends on the fetcher only at the configured ids |
| `NotionPages.FetchedAppend` | src/lib/notion.ts:88-90 | surviving pages keep the order of the configured ids |
| `NotionPages.FailedFetchDropped` | src/lib/notion.ts:88-90 | a page whose fetch fails is dropped without disturbing the others: the result is as if it had not been configured |
| `NotionPages.FetchedAllSucceed` | src/lib/notion.ts:88-90 | when every fetch succeeds, the pages are the fetch results one for one |
| `NotionPages.FetchedAllFail` | src/lib/notion.ts:88-90 | when every fetch fails, no page survives |
| `NotionPages.FillAllFailed` | src/lib/notion.ts:88-100 | configured ids that all fail give an empty context (not the marker), no pages and a fetch time |
| `NotionPages.FetchedPageIds` | src/lib/notion.ts:38-90 | the ids of the kept pages are the configured ids whose two Notion calls succeeded, in configured order |
| `NotionPages.Sections` | src/lib/notion.ts:93 | one "--- Page: title ---" section per page, in page order |
| `NotionPages.Section` | src/lib/notion.ts:93 | a section is the header "--- Page: ", the title, " ---" and a newline, then the content, each at its fixed offset |
| `NotionPages.CombineContext` | src/lib/notion.ts:92-94 | no pages give the empty context (not the marker), and one page gives exactly its section |
| `NotionPages.FillRepeatable` | src/lib/notion.ts:77-101 | repeated fills over the same configuration and fetch results give the same pages and a byte-identical context; only the fill time differs |
| `NotionPages.CombineContextCons` | src/lib/notion.ts:92-94 | one page gives its section; further sections follow after one blank line |
| `NotionPages.SectionInContext` | src/lib/notion.ts:92-94 | every kept page's section, with its title and content, occurs verbatim in the combined context |
| `NotionConfig.DecodeValue` | src/lib/notion.ts:149-151 | "true" and "false" become booleans, and any other value stays the same text |
| `NotionConfig.ParseConfigRows` | src/lib/notion.ts:126-153 | the `forEach` that mutates one object computes the fold `ConfigOf` |
| `NotionConfig.ConfigOf` | src/lib/notion.ts:136-152 | the object built by the row loop never has the empty key or `__proto__`, and holds only booleans and text, never a keyword list |
| `NotionConfig.ConfigKeys` | src/lib/notion.ts:139-152 | a key is present exactly when some row carries it and it is neither empty (the `if (key)` guard) nor `__proto__`, whose assignment on a plain object stores nothing |
| `NotionConfig.ConfigLastWins` | src/lib/notion.ts:147-152 | the last row with a given stored key decides that key's value |
| `NotionConfig.WithKeywordList` | src/lib/notion.ts:156-158 | splitting the keyword setting adds and removes no key, and changes no other key; a keyword setting that is not text is left as it is |
| `NotionConfig.TrimEach` | src/lib/notion.ts:157 | one trimmed keyword per part, in order |
| `NotionConfig.TrimEachTrimmed` | src/lib/notion.ts:157 | trimming already-trimmed keywords changes nothing |
| `NotionConfig.KeywordListRoundTrip` | src/lib/notion.ts:156-158 | a text keyword setting listing trimmed, comma-free words becomes exactly that word list |
| `NotionConfig.KeywordListShape` | src/lib/notion.ts:156-158 | a text keyword setting becomes a list with one entry per comma-separated part, blank parts kept: entry i is part i trimmed, so every entry is trimmed and comma-free |
| `NotionConfig.GetSystemConfig` | src/lib/notion.ts:118-166 | no database id or a failed query gives `null`; otherwise the parsed rows with the keyword list split |
| `NotionSessions.ResolveMode` | src/lib/notion.ts:198 | a row without a mode is in AI mode; otherwise its stored mode |
| `NotionSessions.Upserted` | src/lib/notion.ts:212-245 | the upsert leaves the users with a row plus the given user; that user's row has the new mode and time; every other user's row is unchanged |
| `NotionSessions.SessionStore.GetChatSession` | src/lib/notion.ts:177-207 | `null` when the table is not configured or the user has no row; otherwise the user's row, with the default mode and time filled in and the row's page id; reading creates nothing |
| `NotionSessions.SessionStore.UpdateChatSession` | src/lib/notion.ts:209-246 | nothing happens when the table is not configured; otherwise the table becomes the upsert of the user's row with the new mode and time |
| `NotionSessions.UpsertKeepsOthers` | src/lib/notion.ts:209-245 | the upsert adds, removes and changes no other user's row |
| `NotionSessions.UpsertWritesMode` | src/lib/notion.ts:214-245 | the user ends with a row in the new mode; an existing row with a non-empty page id keeps it (updated in place); a missing row, or one whose page id is empty and so falsy, gets the id Notion assigns |
| `NotionSessions.UpsertRowCount` | src/lib/notion.ts:214-245 | an update adds no row; a creation adds exactly one |
| `NotionSessions.UpsertIdempotent` | src/lib/notion.ts:209-246 | writing the same mode twice leaves the same single row as writing it once, with the later time; the page id is the first write's unless that write left it empty |
| `Ai.EnvOr` | src/lib/ai.ts:5-13 | an environment default gives the variable when it is set and non-empty, otherwise the default |
| `Ai.Framed` | src/lib/ai.ts:32-45 | a prompt built as intro, opening tag, context, closing tag, instructions holds each tag and the context verbatim at its place |
| `Ai.SystemPromptHoldsContext` | src/lib/ai.ts:32-45 | the prompt holds the context verbatim, right after `<NotionContext>` and right before `</NotionContext>` |
| `Ai.SystemPromptInjective` | src/lib/ai.ts:32-45 | the context can be recovered from the prompt: different contexts give different prompts |
| `Ai.PrimaryRequest` | src/lib/ai.ts:52-59 | Gemini is asked with the configured model and temperature, the system prompt holding the context, then the query |
| `Ai.FallbackRequest` | src/lib/ai.ts:78-91 | Groq is asked with the configured model and temperature, the system prompt holding the context as system message, and the query as user message |
| `Ai.PrimaryOutcome` | src/lib/ai.ts:48-61 | a missing Google key is the error "GOOGLE_API_KEY is missing" and Gemini is not called; otherwise the result is Gemini's answer to the primary request |
| `Ai.FallbackOutcome` | src/lib/ai.ts:73-93 | a missing Groq key is the error "GROQ_API_KEY is missing" and Groq is not called; otherwise the result is Groq's answer to the fallback request |
| `Ai.FailureText` | src/lib/ai.ts:105 | the failure text starts with the apology, followed by the "[Primary Error]: " label and, after the primary error, the "[Fallback Error]: " label; it is exactly as long as the apology, the two labels and the two errors together |
| `Ai.GenerateAnswer` | src/lib/ai.ts:31-111 | always returns; a primary success is returned with Gemini's model; the provider is Groq exactly when the primary fails and the fallback succeeds; when both fail, the reply is the failure text with model "none" and provider Gemini |
| `Ai.PrimarySuccessSkipsFallback` | src/lib/ai.ts:59-67 | after a primary success the answer does not depend on Groq: the fallback is never attempted |
| `Ai.MissingGoogleKeyFallsBack` | src/lib/ai.ts:49 | without a Google key the answer does not depend on Gemini, and it comes from Groq exactly when the fallback succeeds |
| `Ai.FallbackSuccess` | src/lib/ai.ts:93-99 | after a primary failure, a fallback success gives Groq's model and its first choice's content, or "" when there is none |
| `Ai.FailureTextReportsBoth` | src/lib/ai.ts:105 | the failure text is the apology, the primary label, the primary error, the fallback label and the fallback error, each verbatim at its offset |
| `Ai.TotalFailureReportsBoth` | src/lib/ai.ts:101-109 | when both providers fail, the reply has model "none" and provider Gemini, and its text is the apology followed by each label with its error, in order |
| `Ai.NoKeysReply` | src/lib/ai.ts:49-108 | with neither key set, the reply quotes both missing-key messages |
| `Ai.ProvidersShareRequest` | src/lib/ai.ts:52-91 | both providers receive the same system prompt, the same query and the same temperature |
| `LineWebhook.HandleEvent` | src/app/api/line/route.ts:25-58 | an event that is not a text message gives no reply; a text message gives one reply, to its own reply token, with the generated answer to its text |
| `LineWebhook.HandleEvents` | src/app/api/line/route.ts:24-61 | handling the events makes at most one reply per event |
| `LineWebhook.Post` | src/app/api/line/route.ts:7-69 | every response is 200, 401 or 500, and it is 200 exactly when the body is the success body |
| `LineWebhook.MissingSecretIs500` | src/app/api/line/route.ts:12-15 | a missing channel secret is a 500 whatever the signature check would say |
| `LineWebhook.InvalidSignatureIs401` | src/app/api/line/route.ts:17-19 | an invalid signature is a 401, with no reply and the body never parsed |
| `LineWebhook.BadBodyIs500` | src/app/api/line/route.ts:7-67 | a body that cannot be read is a 500 with no reply whatever the secret and signature, as it is read first; a body that passes both checks but does not parse is a 500 with no reply too |
| `LineWebhook.AcceptedIsSuccess` | src/app/api/line/route.ts:54-63 | an accepted request is a success whatever LINE does with the replies, because refused replies are swallowed |
| `LineWebhook.HandleEventsAppend` | src/app/api/line/route.ts:24-61 | events are handled independently, and their replies keep the event order |
| `LineWebhook.OneReplyPerTextEvent` | src/app/api/line/route.ts:24-61 | the number of replies is the number of text-message events |
| `LineWebhook.RepliesAnswerTextEvents` | src/app/api/line/route.ts:36-53 | every reply goes to the token of a text-message event, with the generated answer to that event's text |
| `LineWebhook.GeneratorOnlyForText` | src/app/api/line/route.ts:25-41 | only text messages reach the generator: generators that agree on them give the same replies |
| `AdminActions.FormGet` | src/app/admin/actions.ts:7-10 | `formData.get` gives the value of the first entry with the name, or `null` when there is no such entry |
| `AdminActions.AiEnabled` | src/app/admin/actions.ts:7 | the switch is on exactly when the first `ai_enabled` entry is "on" |
| `AdminActions.ConfigWriteLog.UpdateSystemConfig` | src/app/admin/actions.ts:12-15 | each call appends its key and value to the recorded writes and reports the error it throws, if any |
| `AdminActions.UpdateConfigAction` | src/app/admin/actions.ts:6-18 | the setting writes are made in the order AI_ENABLED, MODEL_NAME, SYSTEM_PROMPT, HANDOVER_KEYWORDS, up to and including the first that throws; the action rejects with that error, or resolves when none throws |
| `AdminActions.AllSucceed` | src/app/admin/actions.ts:12-15 | when no write throws, every write is made, in order, and the action resolves |
| `AdminActions.StopsAt` | src/app/admin/actions.ts:12-15 | when write k is the first to throw, exactly the writes up to k are made and the action rejects with write k's error |
| `AdminActions.WritesStopAtFirstError` | src/app/admin/actions.ts:12-15 | the action resolves exactly when no write throws; otherwise it stops at the first write that throws, with that write's error |
| `AdminActions.NewMode` | src/app/admin/actions.ts:21 | a toggle always switches to the other mode |
| `AdminActions.ToggleTwice` | src/app/admin/actions.ts:21 | toggling twice gives back the original mode |
| `AdminActions.ToggleAiModeAction` | src/app/admin/actions.ts:20-24 | with the table configured, the user's row ends in the other mode through the upsert; every other user's row is unchanged |
| `TestBot.PageLabel` | src/app/test-bot/actions.ts:31 | a page is named by its title, or by its id when the title is empty |
| `TestBot.PageLabels` | src/app/test-bot/actions.ts:31 | one name per page, in page order |
| `TestBot.TestBotAction` | src/app/test-bot/actions.ts:15-34 | the context is the snapshot's combined context, also the one the generator receives; response, model and provider come from the generator; one page name per page, in order; latency is end minus start |
| `TestBot.TestBotWithoutPages` | src/app/test-bot/actions.ts:19-31 | with no page configured, the answer is generated against the no-pages marker and no page is listed |
| `TestBot.TestBotListsFetchedPages` | src/app/test-bot/actions.ts:31 | when every configured page loads, the listed pages are the configured pages one for one |

## Left out

- Caching: the 24-hour revalidation, the `notion-data` tag and any
  single-flight behaviour belong to Next.js `unstable_cache`, not to this
  repository. Only the fill function is modelled. The route and the test bot
  take the cache's current snapshot (or its context) as an input.
- Mode gating: the webhook route never reads the chat session. A
  conversation in Human mode still gets an automated reply. The model
  follows the route as written and does not gate on mode.
- `generateAnswer` as imported by the route comes from `@/lib/gemini`, which
  is not part of this model. The route therefore takes an abstract generator,
  assumed to always return. A generator that throws would turn the whole
  request into a 500, and that is not modelled.
- `updateSystemConfig` and `getActiveHumanSessions` are not part of this
  model: the notion.ts shown does not define them. Calls to
  `updateSystemConfig` are recorded in order in `ConfigWriteLog`, and each
  call's outcome (success, or the message it throws) is an input.
- `revalidatePath('/admin/settings')` runs only when all four writes
  succeed; it is not modelled.
- Notion errors in the session table are not modelled; the table is assumed
  reachable. In the source, a failed read inside `updateChatSession` counts
  as "no row", so it would create a second row for the user. A map with one
  row per user cannot represent that.
- A session row whose page id is empty is falsy in the source, so
  `updateChatSession` creates a second row for the user. The map model
  replaces that row instead, with the new page id. Notion page ids are never
  empty, so this case does not arise with real data.
- The session table is a map: at most one row per user. The source reads the
  first row a query returns. A select name other than `AI`/`Human` stored
  directly in Notion is not modelled.
- `getSystemConfig`: a row with no `properties` object throws and yields
  `null`. That case is not modelled; a missing Key or Value property is
  modelled as an empty list.
- Ai.GenerateAnswer: "each provider is tried at most once" is not a contract
  of its own. It holds because each provider is consulted through a single
  call in the function body. `PrimarySuccessSkipsFallback` and
  `MissingGoogleKeyFallsBack` state when a provider is not consulted at all.
- Error messages are the `.message` strings of the thrown errors. A thrown
  value without a message (shown as "undefined" in the source) is not
  distinguished.
- LINE's `validateSignature` is a boolean input. Its own exceptions (for
  instance on a missing signature header) are not modelled.
- The temperature comes from `parseFloat`. It is kept uninterpreted and
  passed through unchanged.
- Every SDK call is a function of its request. Two calls with the same
  request therefore get the same outcome. Examples are a page id listed
  twice, or two events with the same text and context. The real services
  may answer such repeated calls differently; the model does not cover that.
- `Promise.all` fan-out over pages and events is modelled as a sequential,
  order-preserving map. In the route, every event sees the same cached
  context.
- Clock readings (`Date.now()`, `new Date().toISOString()`) are inputs.
  Console logging and `revalidatePath` are not modelled.
- All React pages and the layout (src/app/test-bot/page.tsx,
  src/app/admin/*/page.tsx, src/app/admin/layout.tsx) only render, and are
  not modelled.
