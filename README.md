# LLM Council (Next.js): a Dafny model of its deterministic core

LLM Council sends one question to several language models. It asks each model to rank the
anonymised answers of the others, then has a chairman model write the final answer. This project
models, and proves properties of, the self-contained logic around that pipeline:

- **Configuration** (`lib/config.ts`): the comma-separated council-model variable, the chairman
  default and the server API key.
- **The model catalog route** (`app/api/models/route.ts`): which API key is used, the
  chat-capability test, and the projection of each catalog entry with its default field values.
- **The OpenRouter client** (`lib/openrouter.ts`): one query per model, where every failure
  becomes `null`, and the fan-in of the answers into a dictionary keyed by model id.
- **The peer-review panel** (`app/components/Stage2.tsx`): labels such as "Response A" are
  replaced by the bold short names of the models, and the parsed ranking is displayed.
- **The council-selection dialog** (`app/components/ModelConfigModal.tsx`): toggling, prompt
  edits, the catalog search, Save and its sanitising, and when Save is disabled.
- **The chat page** (`app/page.tsx`): the active council and the chairman of a send, the send
  guards, the selection after a delete or select, and the handler of the streamed stage events.
  The handler is a class whose fields are the variables the callback updates.
- **The browser client** (`app/lib/api.ts`): the effective API key, the model-list request,
  and how the server-sent-event stream is cut into `data: ` events.
- **The conversation store** (`app/lib/indexedDB.ts`): a class over a map from id to
  conversation. It covers create, get, save, delete, clear, the message appends, retitling, and
  the newest-first listing, which ends in an in-place insertion sort on an array.

Shared modules:

- `Wrappers`: `Option` and `Result`.
- `Seqs`: `Filter` and `Map`, with an order lemma that returns the kept positions.
- `JsString`: the JavaScript string built-ins on `seq<char>`. These are `trim`, ASCII
  `toLowerCase`, `includes`, `startsWith`, `split` on one character, and global literal
  replacement.
- `JsValue`: a JSON value type with JavaScript truthiness, `||` and `?.` property reads.

Every JavaScript falsy check (`x || d`, `if (!x)`) is written out on these values. A `?.` read of
a non-object gives "absent". A read that would throw in the source (`null.x`) is an explicit
branch.

## Model

| member | source | states |
|---|---|---|
| Config.ParseModelsFromEnv | lib/config.ts:19-22 | An absent or empty variable gives the defaults unchanged. Otherwise every id is non-empty and trimmed, and there are at most (number of commas + 1) of them |
| Config.ParseOrder | lib/config.ts:21 | The parsed ids are exactly the non-blank comma-separated fields, trimmed, picked out in strictly increasing field order |
| Config.ParsedIdsHaveNoComma | lib/config.ts:21 | No parsed id contains a comma |
| Config.BlankVariable | lib/config.ts:20-21 | A non-empty variable gives the empty list, and not the defaults, exactly when it holds only commas and whitespace |
| Config.CouncilModels | lib/config.ts:26-29 | An absent or empty `COUNCIL_MODELS` gives the four default models |
| Config.ChairmanModel | lib/config.ts:33 | A non-empty variable is used as it is, otherwise the default chairman. The result is never empty |
| Config.OpenRouterApiKey | lib/config.ts:6 | The variable, or "" when it is absent |
| ModelsRoute.IsChatCapableModel | app/api/models/route.ts:57-89 | A null model is never chat-capable, and only objects are. `capabilities.chat === true` suffices. So does `completion === true` with `image !== true`, or a string modality containing "text" in any case. Failing those, the result is true exactly when some string tag contains "chat" or "text" in any case |
| ModelsRoute.Summarize | app/api/models/route.ts:38-45 | The summary keeps `id`. `name` defaults to the id, `description` to "", `pricing.prompt` and `context_length` to null, and `tags` to [] |
| ModelsRoute.SummarizeEach | app/api/models/route.ts:38 | One summary per entry, position by position |
| ModelsRoute.CatalogModels | app/api/models/route.ts:34-53 | A nullish `data.data` gives no models. A `data.data` that is neither nullish nor an array makes the call throw, which becomes the 500 error |
| ModelsRoute.CatalogKeepsChatModels | app/api/models/route.ts:35-45 | The catalog holds exactly the summaries of the chat-capable entries, in input order |
| ModelsRoute.EffectiveApiKey | app/api/models/route.ts:9-10 | A non-empty header key wins. Otherwise the environment key is used |
| ModelsRoute.Get | app/api/models/route.ts:6-55 | A missing key gives the 401 with its message and no upstream request. Otherwise exactly one request goes out with `Bearer <key>`. The route answers with models exactly when that request succeeded with a usable catalog, and then the models are that catalog. Every other outcome is the 500 with its fixed message |
| OpenRouter.FirstChoiceMessage | lib/openrouter.ts:52-53 | `data.choices[0].message` is never null or undefined when it is read without throwing. A nullish `choices` gives none. When `choices` is a non-empty array, the result is the `message` of element 0, or none when that is nullish |
| OpenRouter.QueryModel | lib/openrouter.ts:17-63 | A network error, a timeout or a non-ok status gives null. The result is a response exactly when the reply is ok, its body is JSON and it has a first message. The response's content is the message content, or "" when that is falsy. Its `reasoningDetails` is the message's `reasoning_details` |
| OpenRouter.WellFormedReply | lib/openrouter.ts:52-58 | A well-formed completion yields its text. A message without content yields "" |
| OpenRouter.FirstChoiceRead | lib/openrouter.ts:52-58 | With two choices, the first one's content is returned and its `reasoning_details` is passed through |
| OpenRouter.QueryModelsParallel | lib/openrouter.ts:65-82 | One request per list entry, all with the same messages. The keys of the result are exactly the requested ids. Each id maps to the outcome of its last index, so the later of two duplicates wins. With distinct ids, each id maps to its own outcome |
| OpenRouter.MatchByIndex | lib/openrouter.ts:76-79 | The keys are exactly the requested ids, and each id holds the response of its last index |
| Stage2View.ShortName | app/components/Stage2.tsx:27 | The short name is the id itself, or a non-empty text without '/' |
| Stage2View.ShortNameOf | app/components/Stage2.tsx:27 | An id without '/' is its own short name. Otherwise the short name is the text between the first '/' and the next '/' (or the end), unless that text is empty, in which case it is the whole id |
| Stage2View.Bold | app/components/Stage2.tsx:28 | The replacement is `**`, then the name, then `**` |
| Stage2View.DeAnonymizeText | app/components/Stage2.tsx:21-31 | Without a label map the text is returned unchanged. Otherwise every entry's global replacement is applied in entry order |
| Stage2View.NoLabelsUnchanged | app/components/Stage2.tsx:26-29 | A text in which no label occurs is returned unchanged |
| Stage2View.BoldAvoids | app/components/Stage2.tsx:28 | A bold short name contains no label that is free of '*' and absent from the short name |
| Stage2View.LabelGoneAfterStep | app/components/Stage2.tsx:26-29 | Right after a label's replacement step, that label no longer occurs. This holds when the label is non-empty, has no '*', and does not occur in its own model's short name |
| Stage2View.LabelCanSurvive | app/components/Stage2.tsx:26-29 | Without those conditions a label can survive its own step. Any label without '/' that is mapped to `provider/label` is put back, as "Response A" is by "x/Response A" |
| Stage2View.ShortNameOfPrefixed | app/components/Stage2.tsx:27 | The short name of `provider/name`, with no other '/' and a non-empty name, is the name |
| JsString.FirstIndexAt | app/components/Stage2.tsx:27 | A separator at position i with none before it is the first separator |
| JsString.SplitHead | app/components/Stage2.tsx:27 | The first piece of a split is the text before the first separator |
| JsString.SplitFirst | app/components/Stage2.tsx:27 | Splitting at the first separator gives the text before it, then the pieces of the rest |
| Stage2View.ReplaceWhole | app/components/Stage2.tsx:28 | Replacing a whole non-empty text by something gives that thing |
| Stage2View.Lookup | app/components/Stage2.tsx:83-84 | A label is found exactly when some entry has it, and the value found belongs to such an entry |
| Stage2View.DisplayRanking | app/components/Stage2.tsx:81-85 | The ranking keeps its length and order. Each label whose model is known and non-empty is shown by the model's short name. Any other label is shown as itself |
| Stage2View.UnknownLabelsKept | app/components/Stage2.tsx:81-85 | A ranking of labels that are not in the map is shown as it is |
| ModelConfigModal.ToggleModel | app/components/ModelConfigModal.tsx:79-94 | A toggle flips whether the model is selected. An unselected model gets exactly one new entry `{m, m, ""}` at the end. A selected model loses every entry with its id, and only original entries remain |
| ModelConfigModal.ToggleOther | app/components/ModelConfigModal.tsx:76-94 | Toggling one model does not change whether another one is selected |
| ModelConfigModal.ToggleTwice | app/components/ModelConfigModal.tsx:79-94 | Toggling an unselected model twice gives back the original list |
| ModelConfigModal.DeselectKeepsOthers | app/components/ModelConfigModal.tsx:81-83 | Deselecting keeps every entry of another model, in its original order |
| ModelConfigModal.PromptChange | app/components/ModelConfigModal.tsx:96-102 | Length, order, ids and models are kept. The prompt changes exactly on the entries of the edited model |
| ModelConfigModal.PromptChangeFacts | app/components/ModelConfigModal.tsx:96-102 | A prompt change keeps the selection of every model and is idempotent |
| ModelConfigModal.Sanitize | app/components/ModelConfigModal.tsx:105-108 | Each prompt becomes the trimmed original prompt. Ids and models are unchanged |
| ModelConfigModal.Save | app/components/ModelConfigModal.tsx:104-115 | The configs are sanitised. A blank chairman becomes null, and any other chairman becomes the trimmed draft, which is non-empty. The key is the trimmed draft key, and it is empty exactly when the draft key is blank |
| ModelConfigModal.SaveIdempotent | app/components/ModelConfigModal.tsx:104-115 | Saving what was saved changes nothing |
| ModelConfigModal.DisableSave | app/components/ModelConfigModal.tsx:136 | Save is disabled exactly when no model is selected or the trimmed key is empty |
| ModelConfigModal.EnabledSaveHasKey | app/components/ModelConfigModal.tsx:104-115 | An enabled Save hands on at least one config and a non-empty key |
| ModelConfigModal.ApiKeyOnBlur | app/components/ModelConfigModal.tsx:123-129 | A key is reported exactly when the trimmed draft differs from the stored key, and the key reported is the trimmed draft |
| ModelConfigModal.NormalizedSearch | app/components/ModelConfigModal.tsx:66 | The query is empty exactly when the search is blank |
| ModelConfigModal.FilteredOptions | app/components/ModelConfigModal.tsx:68-74 | A blank search returns every option. Otherwise only catalog options whose name-id-description text contains the query are kept |
| ModelConfigModal.FilteredKeepsMatches | app/components/ModelConfigModal.tsx:68-74 | A non-blank search keeps exactly the matching options, in catalog order |
| Api.EffectiveApiKey | app/lib/api.ts:163 | A non-empty explicit key wins. An absent or empty explicit key gives the stored key |
| Api.ListModelsHeaders | app/lib/api.ts:158-166 | `Cache-Control: no-cache` is always sent. The key header is sent exactly when an effective key exists, and it carries that key |
| Api.ListModels | app/lib/api.ts:157-177 | The request succeeds exactly when the reply is ok, and then returns the body. A failure reports the body's `error` field when that is truthy, and "Failed to load models" otherwise |
| Api.LineEventsOrder | app/lib/api.ts:233-241 | Only lines that begin with `data: ` produce events, in line order. The payload is the line without its first six characters. A line that fails to parse is skipped, and every later line still counts |
| Api.DeliverLines | app/lib/api.ts:233-243 | The loop over one chunk's lines delivers exactly that chunk's events, in line order |
| Api.StreamEventsSnoc | app/lib/api.ts:226-231 | One more chunk read adds its events after the earlier ones |
| Api.ReadEvents | app/lib/api.ts:226-244 | The read loop delivers exactly the events of the stream, chunk after chunk |
| Api.StreamEventsAppend | app/lib/api.ts:226-244 | Chunks are handled in the order they are read |
| Api.NoDataLinesNoEvents | app/lib/api.ts:233-234 | A chunk without data lines delivers no event |
| Api.SendMessageStream | app/lib/api.ts:183-244 | The request carries the content, the council, the chairman, the title flag and the effective key. A non-ok reply and a missing body are errors raised before any event. Otherwise every event of the stream is delivered |
| Page.ActiveModels | app/page.tsx:259-268 | The active models are never more than the configs. Each has a non-empty trimmed model id and a trimmed non-empty prompt or none |
| Page.ActiveModelsOrder | app/page.tsx:259-268 | The active models are exactly the configs with a non-blank model, in order. Each carries the trimmed id, and its trimmed prompt unless that is blank |
| Page.ActiveChairman | app/page.tsx:280-283 | A non-blank override is used trimmed. Otherwise the default chairman is used |
| Page.SetFlag | app/page.tsx:344 | Only the chosen stage's spinner changes |
| Page.PrepareSend | app/page.tsx:250-286 | Nothing happens without a selected, loaded conversation. A missing key opens the dialog. A council without models sends nothing. Otherwise the request carries the active council and the chairman, and asks for a title exactly on the first message |
| Page.SentHasModel | app/page.tsx:253-273 | A send that goes out has a key and at least one config whose model is not blank |
| Page.DeleteConversation | app/page.tsx:177-199 | The deleted id leaves the list. Deleting another conversation keeps the selection. Deleting the current one selects the first remaining conversation, or clears the selection when none remains |
| Page.DeleteKeepsOthers | app/page.tsx:183 | Every other conversation stays in the list, in order |
| Page.SelectConversation | app/page.tsx:167-175 | Selecting the current id is a no-op. Selecting another id makes it current and stops the running stream |
| Page.Kind | app/page.tsx:337-449 | Each of the eight handled event types selects its own branch. `error` and every other type select none |
| Page.Retitle | app/page.tsx:421-427 | Only the title of the entry with that id changes |
| Page.StartSetsOnlyLoading | app/page.tsx:338-347 | A start event raises only that stage's spinner on the last message. Everything else is kept |
| Page.CompleteStoresData | app/page.tsx:349-410 | A complete event stores `data` on the message and in the captured variable, and lowers that stage's spinner. Stage 2 also stores `metadata` |
| Page.NullishTitleIgnored | app/page.tsx:412-414 | A title event whose `data` is nullish throws before any update, so it changes nothing |
| Page.OtherEventsIgnored | app/page.tsx:443-449 | Error events and events of unknown type change nothing |
| Page.CapturedAreLatest | app/page.tsx:288-292 | After any events, the captured results are those of the latest complete event of each stage, or the initial values |
| Page.CompletePersistsLatest | app/page.tsx:430-441 | The `complete` event saves exactly the latest captured stage results and metadata |
| Page.SavesPerComplete | app/page.tsx:430-441 | Saves are only appended, one per `complete` event |
| Page.StreamSession.constructor | app/page.tsx:288-329 | The session starts from the user's message, an empty assistant message and the initial captured values |
| Page.StreamSession.HandleEvent | app/page.tsx:336-450 | The callback changes the fields as the reducer `Reduce` describes |
| Page.StreamSession.HandleEvents | app/page.tsx:332-455 | The events of a stream are applied in order |
| IndexedDb.MetaOf | app/lib/indexedDB.ts:184-189 | A listing line keeps id and creation time and counts the messages. Its title is never empty: an empty title is replaced by the default one |
| IndexedDb.SortNewestFirst | app/lib/indexedDB.ts:191-194 | The sorted array is newest first and is a permutation of the input |
| IndexedDb.ConversationStore.Get | app/lib/indexedDB.ts:100-120 | The stored conversation is returned, or none when the id is absent |
| IndexedDb.ConversationStore.constructor | app/lib/indexedDB.ts:1-63 | The store starts empty |
| IndexedDb.ConversationStore.Create | app/lib/indexedDB.ts:68-95 | A new id gets an empty conversation with the default title. An id in use is an error and changes nothing |
| IndexedDb.ConversationStore.Save | app/lib/indexedDB.ts:125-145 | Save is an upsert, and no other id changes |
| IndexedDb.ConversationStore.Delete | app/lib/indexedDB.ts:150-170 | Afterwards the id is not found, and no other id changes |
| IndexedDb.ConversationStore.Clear | app/lib/indexedDB.ts:271-291 | The store is empty afterwards |
| IndexedDb.ConversationStore.AddUserMessage | app/lib/indexedDB.ts:212-224 | Exactly one user message is appended, and nothing else changes. An unknown id is an error and saves nothing |
| IndexedDb.ConversationStore.AddAssistantMessage | app/lib/indexedDB.ts:229-250 | Exactly one assistant message carrying the three stages and the metadata is appended. An unknown id is an error and saves nothing |
| IndexedDb.ConversationStore.UpdateTitle | app/lib/indexedDB.ts:255-266 | Only the title changes. An unknown id is an error and saves nothing |
| IndexedDb.ConversationStore.List | app/lib/indexedDB.ts:175-207 | One line per stored conversation, exactly the lines of the stored conversations, newest first |
| JsString.Trim | app/components/ModelConfigModal.tsx:107 | The result has no whitespace at either end, is no longer than the input, and is empty exactly when the input is blank |
| JsString.TrimIsSlice | lib/config.ts:21 | The trimmed text is the input with only whitespace cut from its two ends |
| JsString.Split | lib/config.ts:21 | Splitting gives one more piece than the separator occurs, and no piece contains the separator |
| JsString.JoinSplit | app/lib/api.ts:231 | Joining the pieces back with the separator gives the original text |
| JsString.ReplaceRemoves | app/components/Stage2.tsx:28 | After a global replacement, a non-empty pattern no longer occurs. This needs a non-empty replacement that does not contain the pattern and whose first and last characters are not in the pattern |
| JsString.ReplaceAbsent | app/components/Stage2.tsx:28 | Replacing a pattern that does not occur changes nothing |
| Seqs.FilterOrder | app/page.tsx:264 | A filter keeps exactly the accepted elements, at strictly increasing positions |

## Left out

- The network is a parameter. The OpenRouter calls and the `/api/models` and
  `/api/conversations/message/stream` requests are functions or values passed in. Headers other
  than the API key and `Authorization`, `cache: 'no-store'` and the status codes' bodies are
  not modelled beyond the messages shown.
- Concurrency and timing are not modelled. `Promise.all` runs the queries in list order. The
  `AbortController` timeout (120000 ms) and a stream abort on reselect are outcomes given as
  inputs.
- `OpenRouter.QueryModel` models the try/catch as an oracle of transport outcomes. The request
  headers and the `console.error` logging are left out.
- `JSON.parse` and `response.json()` are an opaque partial function `parse`. A body that is not
  JSON is None.
- JSON numbers are integers. Fractions, NaN and -0 are left out.
- `JsValue.Prop` reads own properties of JSON objects only. Properties inherited from the
  prototype (`"constructor"` as a label, say) and properties of arrays and strings (`length`) are
  read as absent.
- `JsString.ToLower` lower-cases ASCII letters only. JavaScript's `toLowerCase` covers all of
  Unicode.
- Stage2View.DeAnonymizeText: each label is replaced as a literal string. `new RegExp(label, 'g')`
  would interpret regular-expression metacharacters in a label. The labels are of the form
  "Response A" and hold none.
- Stage2View.LabelGoneAfterStep: the label is gone after its step only under its three
  conditions. Stage2View.LabelCanSurvive shows the label surviving otherwise.
- Stage2View.Step: the replacement text is inserted literally. In the replacement string of
  `String.prototype.replace`, the patterns `$$`, `$&`, `` $` `` and `$'` are substituted (the
  label's pattern has no capture groups, so `$1` stays as written). A short name holding one of
  those four patterns would be rendered differently by the source.
- `labelToModel` is given as its `Object.entries` order, a sequence of (label, model) pairs.
- `TextDecoder` is left out: a chunk is already a string. A line split across two chunks is not
  reassembled, in the model as in the source.
- Api.ListModels: a failed reply whose body is the JSON value `null` makes the source throw a
  `TypeError` on reading `error`. The model reports "Failed to load models" instead. A
  successful body that is not JSON is None rather than a rejected promise.
- The `localStorage` wrappers of `app/lib/api.ts` (lines 35-78) and the other request helpers
  of that file are left out. The stored key is a parameter.
- React rendering and hooks are left out. JSX, `useState`/`useEffect`, `alert`, and the
  components `ChatInterface`, `Sidebar`, `Stage3`, `SafeMarkdown`, `layout` and `ThemeProvider`
  are not modelled. State updates are functions, or the `StreamSession` class.
- Page.StreamSession.HandleEvent: when the last message is a user message, the source's write
  to `lastMsg.loading` throws. The model leaves the conversation unchanged in that case. After
  `BeginTurn` the last message is always the assistant message.
- Page.StreamSession.HandleEvent: `loadConversations()` after `complete` is counted
  (`listReloads`) but not performed. The writes `updateConversationTitle` and
  `addAssistantMessage` are recorded as requests (`titleUpdates`, `saves`). Their store
  effects are `IndexedDb.ConversationStore.UpdateTitle` and `AddAssistantMessage`, and a
  rejected promise of theirs is left out.
- The page's `loadInitialModels`, `loadConversations`, `handleNewConversation`,
  `handleApiKeyChange`, `handleSaveModelConfigs` and `handleOpenModelConfig` are left out. They
  are state wiring around the store and `localStorage`. The `/api/config` and
  `/api/conversations` routes are left out too: they depend on `lib/storage` and on resolved
  model configs, which are not part of this model.
- Identifier generation (uuid, `crypto.randomUUID`) and the clock are parameters. `created_at`
  is an ISO string in the source and an integer of milliseconds here, so
  `new Date(...).getTime()` is the identity.
- IndexedDB mechanics are left out. `openDB`, transactions, request callbacks and closing are
  replaced by a map inside a class. Only `add` failing on an id in use is modelled as an error,
  not storage errors. `getAll` returns its keys in an order the model leaves open. A stored
  title is a string in the model, though the page may pass a non-string one.
- IndexedDb.SortNewestFirst: stability is not stated. `Array.prototype.sort` is stable, so
  conversations created at the same time keep the `getAll` order there. The model proves only
  order and permutation.
- ModelConfigModal.EnabledSaveHasKey follows directly from the contracts of `DisableSave`,
  `Save` and `Trim`, and needs no proof steps of its own.
- ModelConfigModal: `handleClearApiKey`, the `catalogModels` lookup map and the dialog's reset
  effect are UI wiring and are left out.
