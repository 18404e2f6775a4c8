# Chat front end: transcript controller, Gemini request building, title clean-up and service-worker caching

This Dafny project models the logic at the centre of a Gemini chat front end, and proves properties of that logic.

- **`Transcript`** models `App.tsx`. The `ChatController` class holds the conversation list, the current conversation id and the stop flag. Its methods are the handlers: start a new conversation, send a message, stop, select, clear, and the auto-select effect.
  - Sending appends the user message and a placeholder model message.
  - It then folds the streamed chunks into the placeholder in a loop, until a stop request is seen.
  - Finally it adds the de-duplicated citations, the interruption notice or the error text.
  - The conversation rewrites are the functional `prev.map(...)` updates of the source.
- **`Grounding`** models how citations are collected and de-duplicated by URI, the way a JavaScript `Map` does it (`App.tsx:94-98`).
- **`GeminiRequest`** models what `generateStream` sends to the provider (`services/geminiService.ts:27-95`): the contents built by pushing parts, the filter, the model choice and the constants.
- **`ConversationTitle`** models `generateConversationTitle`: the context built from the first two messages, and the chain of rewrites that cleans the raw title.
- **`CacheApi`** models the Cache Storage API used by the workers. It is a `CacheStorage` class whose caches are named and ordered by creation, each mapping a request URL to a response.
- **`ServiceWorker`** models `service-worker.js` and **`Sw`** models `sw.js`: routing, cache-first, stale-while-revalidate and network-first handling, install and activate.
- **`JsStrings`** holds the JavaScript string semantics everything relies on: `trim` and the `\s` class, `startsWith`, `includes` and `join`.

Several things that are nondeterministic or external in the source are inputs to the model:
- Uuids are fresh ids supplied by the caller.
- `Date.now()` is an integer parameter.
- The response stream is a sequence of chunks plus a flag for whether the generator then throws.
- Stop requests made by other handlers while a reply streams are a sequence of booleans, one per flag test.
- The title provider is a parameter: a function from the prompt to the raw title text or a failure (`ProviderReply`).
- Each `fetch` yields a response or a network failure, passed in as a `FetchResult`.

`types.ts:11-16` declares `Message` without an attachment, but `services/geminiService.ts:30-41` and `:108-109` read `msg.attachment` with fields `data`, `mimeType` and `name`. The model follows the code: `ChatTypes.Message` has an optional attachment.

## Model

| member | source | states |
|---|---|---|
| Transcript.ChatController.constructor | App.tsx:13-17 | The controller starts with the stored conversation list and current id, and the stop flag cleared. |
| Transcript.ChatController.StartNewConversation | App.tsx:46-57 | Sets the stop flag, puts an empty conversation titled "Nova Conversa" with the given id and timestamp first, keeps every other conversation in order, and makes the new one current. |
| Transcript.ChatController.HandleSendMessage | App.tsx:59-157 | A send is ignored, with no state change, exactly when the trimmed input is empty or no conversation is current. The id counts as absent both when it is missing and when it is the empty string, as JavaScript's `!currentConversationId` does. Otherwise the generator receives the current conversation's messages from before the send. Only the current conversation changes, and only by having the reply's messages appended. The reply is the user message, the model message, and possibly the interruption notice. The stop flag ends up set exactly when some stop request was made. |
| Transcript.ChatController.FoldStream | App.tsx:78-92 | The loop accepts the chunks before the first stop request, and exactly those. After it, the model message's content is the concatenation of their texts. It changes nothing but that message's content, and it stops at a stop request. |
| Transcript.ChatController.Conclude | App.tsx:94-153 | After the loop, a thrown generator replaces the content by the error text. Otherwise non-empty citations are attached. On a stop, an empty reply becomes the interruption text, and a non-empty one is followed by a separate interruption message. |
| Transcript.ChatController.HandleStopGenerating | App.tsx:159-161 | Sets the stop flag and changes nothing else. |
| Transcript.ChatController.SelectConversation | App.tsx:173-176 | Sets the stop flag and the current id, and leaves the conversations alone. |
| Transcript.ChatController.ClearHistory | App.tsx:178-182 | Sets the stop flag, empties the list and clears the current id. |
| Transcript.ChatController.AutoSelect | App.tsx:163-170 | With no current id (missing, or the empty string) and a non-empty list, the first conversation becomes current. With an empty list, a new conversation is started. Otherwise nothing changes. Afterwards there is always a current id and at least one conversation. |
| Transcript.AcceptedCount | App.tsx:80-83 | The number of accepted chunks: every checkpoint before it saw no stop request, and the one at it did, unless every chunk was taken. |
| Transcript.EditAppended | App.tsx:87-91 | `EditMessage`, rewriting the fresh model message by its id, changes only that message: the nested `map` over conversations and messages touches nothing else. |
| Transcript.EditMessage | App.tsx:87-91 | The nested `map` that rewrites one message of one conversation; what it changes is stated by `EditAppended`. |
| Transcript.AppendTwice | App.tsx:119-123 | Appending the interruption message after the first append is the same as one append of both. |
| Transcript.AppendFrame | App.tsx:65-71 | `AppendMessages` on the target conversation keeps the list's length and every other conversation and field. The history `HistoryOf` reads afterwards is the old history followed by the appended messages. |
| Transcript.AppendMessages | App.tsx:66-71 | The `map` that appends messages to the target conversation; its frame is `AppendFrame` and the double append `AppendTwice`. |
| Transcript.HistoryOf | App.tsx:65 | `conversations.find(c => c.id === id)?.messages ?? []`; `AppendFrame` states what it reads after an append. |
| Transcript.ChunkTextsPush | App.tsx:84-86 | Each accepted chunk extends the accumulated text by exactly its own text. |
| Transcript.ReplyShape | App.tsx:62-71 | A reply (`ReplyTail`) appends the user message with the input, then the model message with the placeholder's id, then a third message exactly when a stopped reply had text, that message being the interruption notice. |
| Transcript.ReplyTail | App.tsx:62-124 | The messages a send appends; their shape is `ReplyShape`, their content `ReplyContent`, `FailureReplaces` and `ReplyGrounding`. |
| Transcript.ReplyContent | App.tsx:78-124 | The accepted chunks are exactly the stream's prefix before the first stop request. A failure happens exactly when the loop ran to the end and the stream threw. The final content is then the error text, the interruption text, or the joined chunk texts. |
| Transcript.StopCutsStream | App.tsx:80-83 | Once a stop request is made before chunk j, the chunks from j on, and whether the stream would fail, make no difference to the conversation. |
| Transcript.FailureReplaces | App.tsx:146-153 | When the generator throws, the reply is the user message and a model message with the error text and no citations. |
| Transcript.ReplyGrounding | App.tsx:94-106 | A reply that did not fail carries the de-duplicated citations of the accepted chunks. |
| Transcript.TitleRequest | App.tsx:126-133 | A title is requested exactly for a conversation's first exchange whose reply neither failed nor was stopped. Its context is "Usuário: " + input, a blank line, and "Assistente: " + the full reply. |
| Grounding.Citations | App.tsx:94-96 | Keeps exactly the raw entries that have a web source with a non-empty URI and title, and nothing else. |
| Grounding.CitationsAppend | App.tsx:94-96 | The filter keeps the raw order: the citations of a concatenation are the citations of the first part followed by those of the second. |
| Grounding.CitationsOne | App.tsx:94-96 | One raw entry gives its citation when it passes the filter, and nothing otherwise; with `CitationsAppend` this fixes the filter's result entry by entry. |
| Grounding.FirstOccurrencesSpec | App.tsx:98 | The reference de-duplication has distinct elements and exactly the elements of its input. |
| Grounding.FirstOccurrencesOrder | App.tsx:98 | The reference de-duplication lists each value in the order of its first occurrence. |
| Grounding.InsertUris | App.tsx:98 | `Map.set` keeps the key order, and appends a key only when it is new. |
| Grounding.InsertElems | App.tsx:98 | After `Map.set` the new entry is present, every entry with another URI is still present, and nothing else is. |
| Grounding.UniqueUris | App.tsx:98 | The key order of the map built by `UniqueByUri` is the first-occurrence order of the URIs. |
| Grounding.UniqueLastWins | App.tsx:98 | Every entry the map keeps is the last entry with its URI. |
| Grounding.UniqueByUri | App.tsx:98 | The `Map`-based de-duplication; its key order is `UniqueUris` and its entries `UniqueLastWins`. |
| Grounding.CollectGroundingSpec | App.tsx:94-98 | The citations of a reply, `CollectGrounding`, have a URI and a title each, pairwise distinct URIs, the URIs of the kept entries in first-occurrence order, and for each URI its last entry. |
| Grounding.CollectGrounding | App.tsx:94-98 | `flatMap`, filter and de-duplication of the reply's grounding; its properties are `CollectGroundingSpec`. |
| JsStrings.TrimSpec | App.tsx:60 | `trim` cuts the string between two runs of white space, leaves no white space at either end, and gives the empty string exactly for an all-white-space input. |
| GeminiRequest.ContentsShape | services/geminiService.ts:27-82 | Before filtering, `Contents` has one content per history message, with its role and parts, in order. The new user turn follows exactly when it has a part. |
| GeminiRequest.Contents | services/geminiService.ts:27-82 | The reference for the contents before filtering; its shape is `ContentsShape`, and `BuildStreamRequest` is proved against it. |
| GeminiRequest.ImagePartFirst | services/geminiService.ts:30-53 | An image attachment gives one inline-data part, placed before the message's text part. |
| GeminiRequest.OtherAttachmentParts | services/geminiService.ts:38-48 | A non-image attachment adds a text part only on a user message: the "Contexto…" block when its data is non-empty, otherwise the note that it was not read. A model message gets only its own text. |
| GeminiRequest.HistoryContent | services/geminiService.ts:27-54 | The parts pushed for one history message are that message's reference parts, `MessageParts` (the attachment part when there is one, then the text part when the content is non-empty), under the message's own role. |
| GeminiRequest.MessageParts | services/geminiService.ts:30-53 | The reference parts of one history message; `HistoryContent`, `ImagePartFirst` and `OtherAttachmentParts` state them. |
| GeminiRequest.NewTurnOrder | services/geminiService.ts:57-78 | The new turn holds the untrimmed prompt as its last part exactly when the prompt's trim is non-empty. An attachment's part comes first. |
| GeminiRequest.NewTurn | services/geminiService.ts:57-78 | The parts pushed for the new turn are the reference parts, `NewTurnParts`: the attachment part when there is an attachment, then the prompt when its trim is non-empty. |
| GeminiRequest.NewTurnParts | services/geminiService.ts:57-78 | The reference parts of the new turn; `NewTurn` and `NewTurnOrder` state them. |
| GeminiRequest.FilterSpec | services/geminiService.ts:84 | `FilterContents` keeps exactly the contents that have an image part or a non-blank text part, as a subsequence in the original order. |
| GeminiRequest.FilterAppend | services/geminiService.ts:84 | The filter keeps every copy and the order: filtering a concatenation is filtering each part, one after the other. |
| GeminiRequest.FilterOne | services/geminiService.ts:84 | One content is kept exactly when it has an image part or a non-blank text part; with `FilterAppend` this fixes the result content by content. |
| GeminiRequest.FilterIdempotent | services/geminiService.ts:84 | Filtering again removes nothing. |
| GeminiRequest.FilterContents | services/geminiService.ts:84 | The filter; `FilterAppend` and `FilterOne` fix its result, and `FilterSpec` and `FilterIdempotent` state what it keeps and in which order. |
| GeminiRequest.BuildStreamRequest | services/geminiService.ts:27-95 | The push-by-push construction gives the filtered reference contents and the model name "gemini-2.5-flash" whatever the attachment, since both model constants carry that name. It also gives the system instruction, 8192 output tokens and a thinking budget of 1024. |
| ConversationTitle.TitleContextShape | services/geminiService.ts:104-113 | The context, `TitleContext`, is empty for no messages, and one entry for one message. Otherwise it is the first two entries joined by a blank line, and later messages do not matter. |
| ConversationTitle.TitleContext | services/geminiService.ts:104-113 | The context of the first two messages; its shape is `TitleContextShape`. |
| ConversationTitle.ContextEntryShape | services/geminiService.ts:106-111 | Each entry starts with "Usuário: " or "Assistente: ". A message without an attachment shows its content. A message with one shows "[ARQUIVO: name]" first, and trimming does not cut it; when its content does not end in white space, the tag, a space and the whole content follow the label. |
| ConversationTitle.StripTitlePrefixIsInfix | services/geminiService.ts:136 | The corrected label removal leaves a contiguous piece of the title. |
| ConversationTitle.StripTitlePrefixAsWrittenIsInfix | services/geminiService.ts:136 | The label removal as written also leaves a contiguous piece of the title. |
| ConversationTitle.StripEdgeQuotesIsInfix | services/geminiService.ts:138 | The global replace of edge quotes leaves a contiguous piece of the title. |
| ConversationTitle.StripEdgeQuotesBoth | services/geminiService.ts:138 | A title of at least two characters that begins and ends with a double quote, single quote or backtick, in any combination, loses exactly those two characters. |
| ConversationTitle.StripEdgeQuotesNone | services/geminiService.ts:138 | A title with no white space and no quote at its edges is unchanged. |
| ConversationTitle.CleanTitleSpec | services/geminiService.ts:134-138 | Before the fallback, the reply cleaned with the corrected label removal is a contiguous piece of the raw reply and has no white space at its edges. |
| ConversationTitle.LabelledTitle | services/geminiService.ts:136 | "Título: x" and "Title: x", with the word in any case, become x, for any x that does not start with white space. |
| ConversationTitle.PrefixOnlyWhenAlone | services/geminiService.ts:136 | The corrected label removal leaves a title untouched when the word continues. Otherwise it agrees with the regular expression as written. |
| ConversationTitle.CleanTitleAsWrittenSpec | services/geminiService.ts:134-138 | The same holds for the chain exactly as written. |
| ConversationTitle.NormalizeTitleSpec | services/geminiService.ts:134-140 | A title cleaned by `NormalizeTitle` is never empty and has no white space at its edges. It is "Nova Conversa" or a contiguous piece of the provider's text. |
| ConversationTitle.NormalizeTitle | services/geminiService.ts:134-140 | The clean-up with the corrected label removal and the fallback; `NormalizeTitleSpec` states its guarantee. |
| ConversationTitle.LabelledQuotedTitle | services/geminiService.ts:134-140 | `Título: 'x'` cleans to x, for any x without white space at its edges and without final punctuation. |
| ConversationTitle.QuoteBeforeFullStop | services/geminiService.ts:138 | The quotes are removed before the final punctuation, so `'Receitas de Bolo'.` cleans to `Receitas de Bolo'`. |
| ConversationTitle.NormalizeTitleAsWrittenSpec | services/geminiService.ts:134-140 | `NormalizeTitleAsWritten`, the clean-up as written, gives the same guarantee: never empty, no white space at its edges, "Nova Conversa" or a contiguous piece of the provider's text. |
| ConversationTitle.NormalizeTitleAsWritten | services/geminiService.ts:134-140 | The clean-up exactly as written; `NormalizeTitleAsWrittenSpec` and `PrefixAsWrittenCutsWord` state what it gives. |
| ConversationTitle.GenerateConversationTitleSpec | services/geminiService.ts:100-144 | `GenerateConversationTitle` asks the provider with the prompt wrapped around the context. A provider error gives "Conversa". A reply gives a non-empty title without white space at its edges, "Nova Conversa" or a piece of the reply, so the title update guarded at App.tsx:137 always applies. |
| ConversationTitle.GenerateConversationTitleAsWrittenSpec | services/geminiService.ts:100-144 | The same for `generateConversationTitle` exactly as written. |
| ConversationTitle.GenerateConversationTitle | services/geminiService.ts:100-144 | The title generation with the corrected label removal; `GenerateConversationTitleSpec` states its result. |
| ConversationTitle.GenerateConversationTitleAsWritten | services/geminiService.ts:100-144 | The title generation exactly as written; `GenerateConversationTitleAsWrittenSpec` states its result. |
| ConversationTitle.PrefixAsWrittenCutsWord | services/geminiService.ts:136 | As written, "Títulos Públicos" cleans to "s Públicos". |
| ConversationTitle.CorrectedKeepsWord | services/geminiService.ts:136 | With the corrected label removal, "Títulos Públicos" stays "Títulos Públicos". |
| CacheApi.Opened | service-worker.js:16 | `caches.open` adds an empty cache of that name when there is none, and keeps every existing cache. |
| CacheApi.Stored | service-worker.js:67 | `cache.put` of a GET request sets that URL's entry and touches no other entry or cache. Any other method leaves the storage as it was. |
| CacheApi.LookupStored | service-worker.js:62-67 | After `cache.put` of a GET request, `cache.match` of it gives the stored response. Lookups of another URL or in another cache are as before. |
| CacheApi.PutIgnoresOtherMethods | service-worker.js:62-67 | `cache.put` of a non-GET request changes no lookup, and `cache.match` of that request finds nothing. |
| CacheApi.FirstMatchSpec | service-worker.js:85 | `caches.match` answers exactly when some cache holds the GET request, and then with the entry of the earliest-created such cache. |
| CacheApi.WithEntriesSpec | service-worker.js:17 | Adding distinct URLs gives each its own response and keeps every other entry. |
| CacheApi.Without | service-worker.js:29 | Deleting a name from the creation-ordered list leaves exactly the other names, still without repetition. |
| CacheApi.WithoutAppend | service-worker.js:29 | Deleting a name keeps the order: deleting from a concatenation is deleting from each part. |
| CacheApi.WithoutOne | service-worker.js:29 | On one name, deletion removes it exactly when it is the deleted name; with `WithoutAppend` this fixes the result name by name. |
| CacheApi.KeptOnly | service-worker.js:25-32 | The clean-up keeps exactly the listed names that are allowed. |
| CacheApi.KeptOnlyAppend | service-worker.js:25-32 | The clean-up keeps the creation order: on a concatenation it is the clean-up of each part. |
| CacheApi.KeptOnlyOne | service-worker.js:25-32 | On one name, the clean-up keeps it exactly when it is allowed. |
| CacheApi.CacheStorage.Open | service-worker.js:16 | Creates the cache at the end of the creation order when it is missing; otherwise nothing changes. |
| CacheApi.CacheStorage.Put | service-worker.js:67 | Changes the storage as `Stored` says and keeps the order. |
| CacheApi.CacheStorage.Delete | service-worker.js:29 | Reports whether the cache existed, and removes it from the order and the storage. |
| CacheApi.CacheStorage.AddAll | service-worker.js:17 | All or nothing: the entries are added exactly when the URLs are distinct and every fetch gave an ok (200-299) response whose status is not 206, since `addAll` also rejects partial responses. Otherwise the cache is unchanged. |
| CacheApi.CacheStorage.DeleteAllExcept | service-worker.js:25-32 | The loop over `caches.keys()` leaves exactly the allowed caches, unchanged and in their order. |
| CacheApi.CacheStorage.DeleteUnlessKept | service-worker.js:27-30 | One name of the clean-up: a name that is not kept is removed from the order and the storage, a kept one stays; the caches left keep their contents. |
| ServiceWorker.NeverInterceptedFirst | service-worker.js:43-45 | In `Route`, an API path or a non-GET method gets the network-only rule, whatever the host or origin, and exactly those requests do. An intercepted request is a GET outside the API. |
| ServiceWorker.CdnBeforeOrigin | service-worker.js:50-59 | A GET outside the API to a listed CDN host is cache-first, on any origin, including the worker's own. |
| ServiceWorker.OriginRule | service-worker.js:83-106 | A GET to a host that is not a CDN is stale-while-revalidate on the worker's own origin, and not intercepted on any other. |
| ServiceWorker.SubdomainIsCdn | service-worker.js:57 | Because the test is `includes`, any host ending in "gstatic.com" is a CDN host. |
| ServiceWorker.Route | service-worker.js:38-106 | The choice of strategy; `NeverInterceptedFirst`, `CdnBeforeOrigin`, `OriginRule` and `SubdomainIsCdn` state it. |
| ServiceWorker.CachedOrNetworkSpec | service-worker.js:85-101 | The page gets a network error exactly when the fetch failed and the request is not a GET or no cache holds its URL. When some cache holds it, the earliest such cache answers. Otherwise the network's response is used. |
| ServiceWorker.CacheFirstFetch | service-worker.js:60-76 | Opens the CDN cache. A hit is returned with no write. On a miss the network response is returned and stored only when its status is 200. A failed fetch gives the status-408 "Offline" response. |
| ServiceWorker.StaleWhileRevalidateFetch | service-worker.js:84-103 | Answers per `CachedOrNetwork` with the match from before the fetch. Only a status-200 answer is stored, always in `gemini-gpt-v2`; otherwise nothing changes. |
| ServiceWorker.HandleFetch | service-worker.js:38-106 | A request is left to the browser exactly when its route is network-only or unhandled, and then nothing changes. A cache-first request opens the CDN cache and stores the network's response exactly on a miss with status 200. A stale-while-revalidate request opens and writes `gemini-gpt-v2` exactly on a status-200 answer, and otherwise changes nothing. No cache other than the two named ones is ever changed. |
| ServiceWorker.PrecacheKeysDistinct | service-worker.js:7-11 | The app shell is exactly the root page, index.html and manifest.json of the worker's origin, three distinct URLs. |
| ServiceWorker.Install | service-worker.js:14-20 | Opens `gemini-gpt-v2` and adds the app shell. Installation succeeds exactly when every fetch gives an ok response whose status is not 206, and then the cache holds the three responses. On failure the cache exists but gains no entry. |
| ServiceWorker.Activate | service-worker.js:23-35 | Afterwards the only caches are `gemini-gpt-v2` and `gemini-gpt-cdn-v1`, unchanged if they existed. |
| Sw.OnlyApiBypasses | sw.js:43-45 | In `Route`, only the API path is left to the browser. A non-GET request outside the API is intercepted here but not by service-worker.js. |
| Sw.Route | sw.js:38-85 | The choice of strategy; `OnlyApiBypasses` states it. |
| Sw.NetworkFirstIgnoresCache | sw.js:48-56 | In `NetworkFirstOutcome`, a navigation that reaches the network gets the network's response, whatever the caches hold. |
| Sw.NetworkFirstFallback | sw.js:51-53 | When a navigation's fetch fails, it gets the earliest cache's entry for it, or a network error when no cache holds it. |
| Sw.NetworkFirstOutcome | sw.js:48-56 | The network-first answer; `NetworkFirstIgnoresCache` and `NetworkFirstFallback` state it. |
| Sw.StaleWhileRevalidateFetch | sw.js:60-83 | Answers per `CachedOrNetwork`. Any network answer opens `gemini-gpt-v1`, and only a status-200 answer is stored there. A failed fetch changes nothing. |
| Sw.HandleFetch | sw.js:38-85 | A request is left to the browser exactly when it is for the API. Navigations change nothing. Any other request with a network answer opens `gemini-gpt-v1` and stores the answer there exactly when its status is 200; when its fetch fails nothing changes. No cache but `gemini-gpt-v1` is ever changed. |
| Sw.SameAppShell | sw.js:11-15 | sw.js precaches the same three URLs as service-worker.js, written "/x" instead of "./x". |
| Sw.Install | sw.js:6-19 | Opens `gemini-gpt-v1` and adds the app shell. Installation succeeds exactly when every fetch gives an ok response whose status is not 206. |
| Sw.Activate | sw.js:22-35 | Afterwards `gemini-gpt-v1` is the only cache left, unchanged if it existed, so the caches of service-worker.js are deleted too. |

## Left out

- UI and hosting code is not part of this model, because it is rendering, DOM, timer or storage glue, or configuration:
  - the React components, including `components/LiveView.tsx` with its audio and WebSocket session (floating point and timing);
  - the theme and resize effects of `App.tsx`;
  - `services/authService.ts`, the `api/*.ts` endpoints, `config.ts`, `vite.config.ts` and `capacitor.config.ts`.
- The provider calls are given, not modelled. `generateContentStream` is replaced by its result, the chunk stream. `generateContent` is a function parameter from the prompt to the raw title text or a failure; its model, system instruction and temperature are not modelled.
- Transcript.ChatController.HandleSendMessage records only whether a background title is requested, and with which messages (`Completed(Some(...))`). The asynchronous title update at App.tsx:136-142 is not applied to the state.
- Transcript.ChatController.HandleSendMessage takes each chunk's `text` as a string. A chunk whose `text` is undefined, which JavaScript would append as "undefined", is not modelled.
- Transcript.ChatController.HandleSendMessage models stop requests from other handlers only through the stop flag. Their other effects during a stream, such as switching or clearing conversations, are not interleaved with the loop. The loop always writes to the conversation that was current when the send began, which is what the source's closures do.
- The `setIsTyping` busy flag and `console.error` logging are not part of this model.
- `localStorage` persistence behind `useLocalStorage` is not part of this model: the state lives in the controller's fields.
- URL parsing is not modelled: a request carries its `href`, origin, host name and path.
- Precache entries are resolved against a worker script served from the root of its origin ("./x" and "/x" both name origin + "/x"). General relative-URL resolution is left out.
- Cache entries are keyed by the request's URL alone. `Vary` headers, fragments, `ignoreSearch` and cloning of response bodies are left out.
- The promises of the handlers are not modelled. `waitUntil`, `respondWith` timing, `skipWaiting` and `clients.claim` are left out. A background `cache.put` takes effect in the same step as the response, so the model captures the final cache state but not the order in which the page sees it.
- `Promise.all` over the deletions on activate is modelled as deletions in `caches.keys()` order; the final state is the same.

## Findings

| source | as written | input that shows it | evidently intended | confidence | as-written member | corrected member |
|---|---|---|---|---|---|---|
| services/geminiService.ts:136 | `/^(título\|title):?\s*/i` has no word boundary, so it also removes the first letters of a longer title word | the raw title "Títulos Públicos" cleans to "s Públicos" | strip the label only when the word stands alone, followed by ':', white space or the end | high; not executed | ConversationTitle.PrefixAsWrittenCutsWord | ConversationTitle.CorrectedKeepsWord |

Two definitions cover this finding:
- `ConversationTitle.StripTitlePrefixAsWritten` is the regular expression exactly as written.
- `ConversationTitle.StripTitlePrefix` is the corrected version. It is what `CleanTitle`, `NormalizeTitle` and so `GenerateConversationTitle` use.
- `CleanTitleAsWritten`, `NormalizeTitleAsWritten` and `GenerateConversationTitleAsWritten` are the chain exactly as written. Their guarantees are proved too (`GenerateConversationTitleAsWrittenSpec`): the bug changes which title comes out, not whether one does.

`ConversationTitle.PrefixOnlyWhenAlone` proves that the corrected version differs from the as-written one exactly on titles where the word continues.
