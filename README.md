# AIChat core in Dafny

This project models three parts of the AIChat Electron application and proves
properties of them.

- **The LLM provider presenter** (`LlmProvider`, `llm_provider_presenter.dfy`).
  It keeps three tables:
  - the configured providers, keyed by id in insertion order;
  - a lazy cache of provider adapters;
  - the active generation streams, each with its abort controller, under a
    concurrency cap (10 by default).

  Stream sessions republish the chunks of a provider's stream onto an event
  log. They stop when their abort flag is set. Each session removes its own
  entry in a `finally`. The model keeps the code's quirks:
  - `startStreamCompletion` has no duplicate-id check;
  - a stopped `handleStreamOperation` session still publishes a second END;
  - a same-id restart that registers while an old session is suspended loses
    its entry when the old session finishes.
- **The message manager** (`Messages`, `message_manager.dfy`).
  - It converts storage rows into messages: usage counters come from
    metadata, with defaults.
  - New rows get `order_seq = max + 1` within their conversation.
  - Retries create variants under the original's parent.
  - Threads are sorted by `(created_at, order_seq)` and paged.
  - The context window is the last N messages, in conversation order.
  - Metadata updates are shallow merges.
  The SQLite presenter is modelled as a sequence of rows.
- **The renderer's settings store** (`Settings`, `settings_store.dfy`). It
  keeps three provider → model lists:
  - `updateLocalModelStatus` updates them in place: it sets a flag, appends a
    copy, or splices one out.
  - Refreshes upsert a provider's models by provider id. A full refresh
    first syncs the local Ollama models into the lists. The enabled list
    gets an Ollama entry only when some model is enabled, so afterwards
    the two lists line up by provider id but not always by position.
  - The search-assistant priority search looks by key, then provider, then
    model.
  - Ollama pull events become a progress map.

`common.dfy` (`Wrappers`) holds:
- `Option`, `Result` and `Outcome`;
- JavaScript truthiness of strings;
- `Array.prototype.slice` with negative indices;
- ASCII lower-casing and substring search.

The event bus is the append-only `events` log. Provider adapters are values
recording which family was built for which descriptor. A provider's response
stream is a given finite sequence of chunks that may end in a failure. Fresh
row ids, clocks and configuration lookups are parameters.

The only interleaving modelled is an `Interruption` of a suspended session:
a `stopStream` on its own event id while element `k` of its stream is
awaited, optionally followed by the synchronous part of a same-id restart.

## Model

| member | source | states |
|---|---|---|
| LlmProvider.ProviderTable | src/main/presenter/llmProviderPresenter/index.ts:110-113 | `providers` after `clear` and `set(p.id, p)` for every descriptor: each key maps to a descriptor with that id |
| LlmProvider.ProviderTableKeys | src/main/presenter/llmProviderPresenter/index.ts:110-113 | the table holds exactly the ids occurring in the list |
| LlmProvider.ProviderTableLastWins | src/main/presenter/llmProviderPresenter/index.ts:110-113 | with duplicate ids the last descriptor wins |
| LlmProvider.FindById | src/main/presenter/llmProviderPresenter/index.ts:123 | `providers.find` by id returns a descriptor with that id, none exactly when the id is absent from the table |
| LlmProvider.KeyOrder | src/main/presenter/llmProviderPresenter/index.ts:110-117 | the Map's key order has no duplicates and lists exactly the table's keys |
| LlmProvider.EnabledIds | src/main/presenter/llmProviderPresenter/index.ts:115-117 | exactly the ids of the key order whose descriptor is enabled, without duplicates when the key order has none |
| LlmProvider.EnabledIdsIsFilter | src/main/presenter/llmProviderPresenter/index.ts:115-117 | `filter` over the key order: the filter of a concatenation is the concatenation of the filters, so the enabled ids stay in key order and keep their multiplicity |
| LlmProvider.EnabledIdsSingle | src/main/presenter/llmProviderPresenter/index.ts:115-117 | a single id is kept exactly when its descriptor is enabled |
| LlmProvider.WarmCache | src/main/presenter/llmProviderPresenter/index.ts:118-120 | after a walk that does not throw, the cache holds exactly the walked ids |
| LlmProvider.FirstUnsupported | src/main/presenter/llmProviderPresenter/index.ts:135-138 | the position of the first id outside `{openai, deepseek, ollama}` |
| LlmProvider.WarmCacheResult | src/main/presenter/llmProviderPresenter/index.ts:118-157 | the walk throws `not supported` for the first unsupported id, and only the ids before it get adapters |
| LlmProvider.WarmCacheStops | src/main/presenter/llmProviderPresenter/index.ts:118-120 | once the walk has thrown, the later ids change nothing |
| LlmProvider.InitCacheKeys | src/main/presenter/llmProviderPresenter/index.ts:58-76 | `init` caches exactly the ids of the enabled descriptors whose api type is `openai` or `deepseek` |
| LlmProvider.InitCacheLastWins | src/main/presenter/llmProviderPresenter/index.ts:58-76 | the adapter cached for an id is the one chosen by api type for the last such descriptor with that id; a later disabled or unknown-type duplicate leaves it in place |
| LlmProvider.ResolveIdempotent | src/main/presenter/llmProviderPresenter/index.ts:128-157 | a second `getProviderInstance` of the same id returns the same result and leaves the cache as the first left it |
| LlmProvider.InitDispatchesByApiType | src/main/presenter/llmProviderPresenter/index.ts:64-72 | `init` builds an OpenAI adapter for an id that `getProviderInstance` (lines 135-138) rejects as not supported |
| LlmProvider.StopEnds | src/main/presenter/llmProviderPresenter/index.ts:195-200 | `stopAllStreams` publishes one END with `userStop` per stopped id, in stopping order |
| LlmProvider.StopEndsCount | src/main/presenter/llmProviderPresenter/index.ts:187-200 | those END events number the stopped ids, and there are no other ENDs and no ERRORs |
| LlmProvider.RelayedFacts | src/main/presenter/llmProviderPresenter/index.ts:276-286 | the loop republishes exactly the delivered chunks in order, with one user-stop END if and only if it was stopped |
| LlmProvider.CompletionPublishes | src/main/presenter/llmProviderPresenter/index.ts:274-295 | `startStreamCompletion` republishes the chunks that arrived before the abort, in order; its own END only when not aborted and no failure; one ERROR exactly on a failure, last, carrying `error.message` for a thrown Error and `String(error)` for any other thrown value |
| LlmProvider.OperationPublishes | src/main/presenter/llmProviderPresenter/index.ts:206-247 | `handleStreamOperation` republishes the same chunks; its own END after every normal return, stopped or not; one ERROR exactly on a failure, last, carrying `String(error)`: `name: message` for a thrown Error (only the non-empty one when the other is empty), the value's text otherwise |
| LlmProvider.UninterruptedDeliversAll | src/main/presenter/llmProviderPresenter/index.ts:276-286 | without a stop every chunk is republished, and a failure is reached exactly when the stream has one |
| LlmProvider.AbortController.constructor | src/main/presenter/llmProviderPresenter/index.ts:225 | a new abort controller is not aborted |
| LlmProvider.LlmProviderPresenter.constructor | src/main/presenter/llmProviderPresenter/index.ts:52-78 | the providers table comes from the configured list; the cache is built by api type; there is no current provider, no stream and no event; the cap is 10 |
| LlmProvider.LlmProviderPresenter.Init | src/main/presenter/llmProviderPresenter/index.ts:56-78 | the loop of `init` builds that table, key order and cache |
| LlmProvider.LlmProviderPresenter.GetProviderById | src/main/presenter/llmProviderPresenter/index.ts:86-92 | success exactly when the id is in the table, returning its descriptor; otherwise `Provider … not found` |
| LlmProvider.LlmProviderPresenter.GetProviderInstance | src/main/presenter/llmProviderPresenter/index.ts:128-157 | a cached adapter, or `not found`, or `not supported` outside `{openai, deepseek, ollama}`, or a new adapter chosen by id and cached |
| LlmProvider.LlmProviderPresenter.SetMaxConcurrentStreams | src/main/presenter/llmProviderPresenter/index.ts:420-422 | the cap becomes the given value |
| LlmProvider.LlmProviderPresenter.GetMaxConcurrentStreams | src/main/presenter/llmProviderPresenter/index.ts:424-426 | returns the cap |
| LlmProvider.LlmProviderPresenter.IsGenerating | src/main/presenter/llmProviderPresenter/index.ts:180-182 | an id is generating exactly when it has an active-stream entry |
| LlmProvider.LlmProviderPresenter.CanStartNewStream | src/main/presenter/llmProviderPresenter/index.ts:202-204 | a start is allowed exactly when fewer sessions are active than the cap |
| LlmProvider.LlmProviderPresenter.StopStream | src/main/presenter/llmProviderPresenter/index.ts:187-194 | on an active id it aborts the session, removes it and publishes one END with `userStop`; on an unknown id it changes and publishes nothing |
| LlmProvider.LlmProviderPresenter.StopAllStreams | src/main/presenter/llmProviderPresenter/index.ts:195-200 | afterwards no stream is active, every old session is aborted, and one user-stop END was published per old id |
| LlmProvider.LlmProviderPresenter.SetProviders | src/main/presenter/llmProviderPresenter/index.ts:106-126 | stops every stream and rebuilds the table and the cache for the enabled providers, in key order; the first unsupported one throws and ends the call. A walk that does not throw then clears a current provider that is absent from the new list |
| LlmProvider.LlmProviderPresenter.ReplaceProviders | src/main/presenter/llmProviderPresenter/index.ts:110-125 | the part after the streams are stopped: the table and key order come from the list, and the cache comes from the walk over the enabled ids |
| LlmProvider.LlmProviderPresenter.BuildProviderTable | src/main/presenter/llmProviderPresenter/index.ts:110-113 | the loop builds `ProviderTable` and its key order |
| LlmProvider.LlmProviderPresenter.WarmProviders | src/main/presenter/llmProviderPresenter/index.ts:114-120 | the loop over the enabled ids yields the outcome and the cache of `WarmCache` |
| LlmProvider.LlmProviderPresenter.SetCurrentProvider | src/main/presenter/llmProviderPresenter/index.ts:93-105 | stops every stream. An unknown id throws and changes nothing. Otherwise the id becomes current before the adapter is resolved, so an unsupported provider stays current while the call throws |
| LlmProvider.LlmProviderPresenter.AdmitCompletion | src/main/presenter/llmProviderPresenter/index.ts:255-272 | rejected with the table unchanged when the cap is reached or the adapter cannot be had; otherwise registers a fresh, unaborted session at the id, overwriting any entry there |
| LlmProvider.LlmProviderPresenter.AdmitOperation | src/main/presenter/llmProviderPresenter/index.ts:212-236 | as above, but an id that is already active is rejected after the cap check and its entry is left untouched |
| LlmProvider.LlmProviderPresenter.Interject | src/main/presenter/llmProviderPresenter/index.ts:187-194 | the interleaved `stopStream` at its await point, and perhaps a restart's synchronous part; other sessions are untouched |
| LlmProvider.LlmProviderPresenter.Restart | src/main/presenter/llmProviderPresenter/index.ts:255-272 | a same-id restart only touches its own id, and what it registers is a fresh controller |
| LlmProvider.LlmProviderPresenter.Relay | src/main/presenter/llmProviderPresenter/index.ts:276-286 | the `for await` loop publishes `Relayed`; it is aborted exactly when a stop fell inside the stream; other sessions are untouched |
| LlmProvider.LlmProviderPresenter.StartStreamCompletion | src/main/presenter/llmProviderPresenter/index.ts:248-299 | a rejected start changes nothing. Otherwise it publishes `CompletionEvents`, does not rethrow, and afterwards its id is not generating, even when a restart had registered there |
| LlmProvider.LlmProviderPresenter.HandleStreamOperation | src/main/presenter/llmProviderPresenter/index.ts:206-247 | a rejected start changes nothing. Otherwise it publishes `OperationEvents`, rethrows exactly on a failure, and afterwards its id is not generating |
| LlmProvider.LlmProviderPresenter.StartStreamSummary | src/main/presenter/llmProviderPresenter/index.ts:300-329 | `handleStreamOperation` over the summary stream, with the same effect |
| LlmProvider.LlmProviderPresenter.StartStreamText | src/main/presenter/llmProviderPresenter/index.ts:330-364 | `handleStreamOperation` over the text stream, with the same effect |
| Messages.ConvertToMessage | src/main/presenter/threadPresenter/messageManager.ts:28-65 | the row's fields are copied; the message has as many variants as the row, and each is the conversion of the variant row at the same position; avatar, name and error are empty |
| Messages.ConvertWithoutMetadata | src/main/presenter/threadPresenter/messageManager.ts:28-65 | with absent or unparsable metadata every usage counter is 0 and model name, id and provider are `''` |
| Messages.ConvertWithMetadata | src/main/presenter/threadPresenter/messageManager.ts:28-65 | with object metadata each of the eight usage counters is its field when that is present and not null, and 0 exactly otherwise; model name and model id are both `metadata.model`, and the model provider `metadata.provider`, each `''` when missing or null |
| Messages.MergeMetadata | src/main/presenter/threadPresenter/messageManager.ts:249-252 | the merge has the union of the keys; patch values win; other stored keys keep their values |
| Messages.MergeMetadataIdempotent | src/main/presenter/threadPresenter/messageManager.ts:249-252 | merging the same patch twice is merging it once |
| Messages.MaxOrderSeq | src/main/presenter/threadPresenter/messageManager.ts:88 | `MAX(order_seq)` of the conversation: at least every `order_seq` in it, and equal to the `order_seq` of one of its rows when it has any (negative values included); 0 when it has none |
| Messages.DeleteConversation | src/main/presenter/threadPresenter/messageManager.ts:307-309 | no row of the conversation remains, and every other row stays |
| Messages.DeleteKeepsOthers | src/main/presenter/threadPresenter/messageManager.ts:307-309 | every other conversation keeps exactly its rows, in order |
| Messages.SortBy | src/main/presenter/threadPresenter/messageManager.ts:222-228 | the sort yields a permutation sorted by `(created_at, order_seq)`, ascending or descending, and it is stable: for every key the rows with that key keep their stored order |
| Messages.PageStartProduct | src/main/presenter/threadPresenter/messageManager.ts:217 | the page start is `(page - 1) * pageSize` |
| Messages.PageEnd | src/main/presenter/threadPresenter/messageManager.ts:217-218 | a page's end `start + pageSize` is the next page's start |
| Messages.PagesTile | src/main/presenter/threadPresenter/messageManager.ts:217-233 | a page holds at most `pageSize` messages, and two consecutive pages are exactly the slice from the first one's start to `start + 2 * pageSize` |
| Messages.Thread | src/main/presenter/threadPresenter/messageManager.ts:211-235 | `total` counts every message of the conversation, and `list` is `slice((page - 1) * pageSize, (page - 1) * pageSize + pageSize)` of its messages sorted ascending |
| Messages.ContextRows | src/main/presenter/threadPresenter/messageManager.ts:279-293 | the window is sorted ascending and drawn from the conversation; for `count >= 0` it holds `min(count, n)` rows |
| Messages.ContextIsLastOfThread | src/main/presenter/threadPresenter/messageManager.ts:275-297 | with distinct `(created_at, order_seq)` keys the window is the last `min(count, n)` rows of the ascending order |
| Messages.NewRowIsLast | src/main/presenter/threadPresenter/messageManager.ts:88-101 | the new row's `order_seq` exceeds every `order_seq` of its conversation |
| Messages.AppendWellFormed | src/main/presenter/threadPresenter/messageManager.ts:88-101 | appending the new row keeps ids unique and `order_seq` unique per conversation |
| Messages.MessageManager.constructor | src/main/presenter/threadPresenter/messageManager.ts:19-21 | starts from the stored rows, with no attachment and no event |
| Messages.MessageManager.GetMessage | src/main/presenter/threadPresenter/messageManager.ts:169-175 | the converted row when the id exists, `not found` exactly when it does not |
| Messages.MessageManager.GetMessageThread | src/main/presenter/threadPresenter/messageManager.ts:211-235 | `total` is the conversation's size; `list` is that slice of the ascending thread, so for `page >= 1` it holds at most `pageSize` messages |
| Messages.MessageManager.GetContextMessages | src/main/presenter/threadPresenter/messageManager.ts:275-297 | `min(count, n)` messages for `count >= 0` |
| Messages.MessageManager.ContextWindowIsThreadTail | src/main/presenter/threadPresenter/messageManager.ts:275-297 | in a well-formed store the context window is the tail of the thread order |
| Messages.MessageManager.SendMessage | src/main/presenter/threadPresenter/messageManager.ts:78-113 | appends one pending row: `order_seq = max + 1`, `is_variant` 1 iff requested, metadata as an object. The search-results attachment is added iff the text is truthy. Returns the stored message and keeps the store well-formed |
| Messages.MessageManager.EditMessage | src/main/presenter/threadPresenter/messageManager.ts:120-134 | replaces only the content; publishes MESSAGE_EDITED for the id, then for a non-empty parent; a missing id throws and changes nothing |
| Messages.MessageManager.RetryMessage | src/main/presenter/threadPresenter/messageManager.ts:150-168 | a new variant row with the original's conversation and role, the parent or `''`, and content `[]`; the original is unchanged; a missing original throws |
| Messages.MessageManager.UpdateMessageStatus | src/main/presenter/threadPresenter/messageManager.ts:237-239 | only the status of that id changes |
| Messages.MessageManager.UpdateMessageMetadata | src/main/presenter/threadPresenter/messageManager.ts:241-256 | a missing id is a no-op; unparsable metadata throws and changes nothing; otherwise the stored metadata becomes the merge |
| Messages.MessageManager.MarkMessageAsContextEdge | src/main/presenter/threadPresenter/messageManager.ts:263-267 | only the context-edge flag of that id changes, to 1 or 0 |
| Messages.MessageManager.ClearAllMessages | src/main/presenter/threadPresenter/messageManager.ts:307-309 | the conversation's rows are gone and the other conversations are untouched |
| Settings.EntryIndex | src/renderer/src/store/settings.ts:110 | `findIndex` by provider id: the first entry with that id, or none when no entry has it |
| Settings.ModelIndex | src/renderer/src/store/settings.ts:113 | `findIndex` by model id: the first model with that id, or none |
| Settings.SetEnabled | src/renderer/src/store/settings.ts:108-118 | exactly the first model with the id, in the first entry of the provider, takes the flag (the same update is applied to the custom list at lines 143-151); every other entry, model and field is unchanged |
| Settings.SetEnabledIdempotent | src/renderer/src/store/settings.ts:108-118 | setting the same flag twice is setting it once |
| Settings.RemoveFirst | src/renderer/src/store/settings.ts:134-140 | `splice(modelIndex, 1)`: one model shorter, the models before the first match kept in place, the later ones shifted down by one |
| Settings.RemoveFirstCount | src/renderer/src/store/settings.ts:134-140 | the splice removes exactly one model with the id when there is one |
| Settings.SwitchEnabled | src/renderer/src/store/settings.ts:120-141 | only the provider's first enabled entry can change, and no provider id moves |
| Settings.EnableAppendsCopy | src/renderer/src/store/settings.ts:122-133 | enabling a model missing from the enabled entry appends an enabled copy of the full list's model; when it is present nothing changes; afterwards it is there, so enabling twice is enabling once |
| Settings.DisableRemovesFirst | src/renderer/src/store/settings.ts:134-140 | disabling splices out the first copy and so lowers its count by one; without a copy nothing changes |
| Settings.Upsert | src/renderer/src/store/settings.ts:194-204 | an existing entry's models are replaced in place, otherwise a new entry is appended, and other entries are unchanged |
| Settings.UpsertUnique | src/renderer/src/store/settings.ts:194-204 | upserting keeps provider ids unique, and the provider's entry then holds exactly the new models |
| Settings.OnlyEnabled | src/renderer/src/store/settings.ts:206-217 | `filter(enabled !== false)`: exactly the enabled models |
| Settings.OnlyEnabledIsFilter | src/renderer/src/store/settings.ts:206-217 | the filter of a concatenation is the concatenation of the filters, so the enabled models keep their order and multiplicity |
| Settings.OnlyEnabledSingle | src/renderer/src/store/settings.ts:206-217 | a single model is kept exactly when it is enabled |
| Settings.UpsertMirrors | src/renderer/src/store/settings.ts:194-217 | upserting a provider into the full list and its filter into the enabled list keeps the enabled list the filter of the full list, entry by entry |
| Settings.MirrorsAreById | src/renderer/src/store/settings.ts:194-217 | lists that line up position by position also line up by provider id: each enabled entry is the filter of its provider's full entry, and every full entry with an enabled model has an enabled entry |
| Settings.UpsertMirrorsById | src/renderer/src/store/settings.ts:194-217 | the same upsert into both lists keeps them lined up by provider id |
| Settings.UpsertFullMirrorsById | src/renderer/src/store/settings.ts:510-534 | upserting into the full list alone, with no enabled model and no enabled entry for the provider, keeps them lined up by provider id |
| Settings.WithStatus | src/renderer/src/store/settings.ts:179-191 | each model takes its stored status and the provider id, everything else kept |
| Settings.CustomWithStatus | src/renderer/src/store/settings.ts:221-233 | each custom model takes its status and is marked custom; it takes the provider id when the provider id is set (line 231, not in the loop of `refreshAllModels`); every other field is kept |
| Settings.StatusOnly | src/renderer/src/store/settings.ts:288-297 | each online model takes its status, everything else kept |
| Settings.RefreshAllConsistent | src/renderer/src/store/settings.ts:263-362 | the loop keeps the enabled list the filter of the full list by provider id and provider ids unique in all three lists; lists that lined up by position still do |
| Settings.RefreshAllKeepsOllama | src/renderer/src/store/settings.ts:263-265 | the loop skips Ollama, so Ollama's entries in the full and enabled list stay where and what the sync left them |
| Settings.RefreshAllEntry | src/renderer/src/store/settings.ts:263-362 | from lists naming each provider at most once, each active provider (a provider listed twice included) other than Ollama owns the full entry with its online models followed by its custom models, and its enabled entry (found by provider id) holds their filter |
| Settings.UpsertOther | src/renderer/src/store/settings.ts:332-343 | upserting one provider leaves another provider's entry where it was and unchanged |
| Settings.OllamaAsGlobal | src/renderer/src/store/settings.ts:486-508 | one model per local model, in order, with the local model's name as id. A name that already has a model stored under Ollama yields the first stored model with that id, whole; any other name yields the defaults (`local` group, 4096/2048, enabled) |
| Settings.SyncOllamaKeeps | src/renderer/src/store/settings.ts:480-534 | the sync keeps the lists consistent and the custom list unchanged; with an Ollama provider, Ollama then has a full entry with one model per local model |
| Settings.SyncFromEmpty | src/renderer/src/store/settings.ts:480-534 | on empty lists the full list becomes Ollama's entry with the default models, and the enabled list that same entry when there is a local model and stays empty otherwise |
| Settings.RefreshStart | src/renderer/src/store/settings.ts:252-261 | the lists the loop starts from: emptied, then synced when an enabled provider is Ollama and listing the local models did not throw; they are consistent |
| Settings.RefreshedOllamaEntry | src/renderer/src/store/settings.ts:252-265 | after a refresh with an enabled Ollama provider, Ollama's full entry comes first and lists every local model, and Ollama has an enabled entry exactly when there is a local model |
| Settings.RefreshOutcome | src/renderer/src/store/settings.ts:252-362 | a whole refresh leaves consistent lists; they line up by position when no sync ran; after a sync Ollama's entry comes first with every local model, and it has an enabled entry exactly when there is a local model |
| Settings.OllamaGapBreaksPositions | src/renderer/src/store/settings.ts:523-534 | with enabled providers `[ollama, openai]` and no local model, the full list has two entries and the enabled list one, so the lists do not line up by position |
| Settings.ModelHit | src/renderer/src/store/settings.ts:436-446 | the first model of a provider whose id or name contains the key, ignoring case |
| Settings.ProviderHit | src/renderer/src/store/settings.ts:435-447 | the first provider with a matching model, and its first such model |
| Settings.KeyHit | src/renderer/src/store/settings.ts:434-448 | the earliest key some model matches, with no model matching an earlier key |
| Settings.PriorityModelSpec | src/renderer/src/store/settings.ts:429-459 | no lists give null. A key hit matches the earliest possible key of the list at lines 23-32, ties going to provider order, then model order. With no hit the result is the first model of the first entry, or null |
| Settings.Progress | src/renderer/src/store/settings.ts:565 | `min(round(completed / total * 100), 100)` is at most 100, and not negative for a non-negative `completed` |
| Settings.ProgressMonotone | src/renderer/src/store/settings.ts:565 | more completed bytes never show less progress, and a finished pull shows 100 |
| Settings.FirstProvider | src/renderer/src/store/settings.ts:156 | `providers.find` by id: a provider with that id, none exactly when there is none |
| Settings.ActiveProviders | src/renderer/src/store/settings.ts:253 | exactly the enabled providers |
| Settings.ActiveProvidersIsFilter | src/renderer/src/store/settings.ts:253 | the filter of a concatenation is the concatenation of the filters, so the active providers stay in configuration order |
| Settings.ActiveProvidersSingle | src/renderer/src/store/settings.ts:253 | a single provider is kept exactly when it is enabled |
| Settings.SettingsStore.constructor | src/renderer/src/store/settings.ts:39-41 | the store starts with the loaded providers, empty model lists and no pull in progress |
| Settings.SettingsStore.UpdateLocalModelStatus | src/renderer/src/store/settings.ts:107-152 | the full and custom lists become `SetEnabled` of the old ones, and the enabled list becomes `SwitchEnabled` |
| Settings.SettingsStore.FindPriorityModel | src/renderer/src/store/settings.ts:429-459 | the triple loop with early return computes `PriorityModel` |
| Settings.SettingsStore.ScanProviders | src/renderer/src/store/settings.ts:435-447 | the two inner loops for one key compute `ProviderHit` |
| Settings.SettingsStore.RefreshProviderModels | src/renderer/src/store/settings.ts:155-250 | a missing or disabled provider changes nothing. Otherwise the full entry takes the models with their status and the enabled entry their filter; the custom entry changes only when there are custom models. The enabled list keeps mirroring the full list, by position and by provider id |
| Settings.SettingsStore.RefreshAllModels | src/renderer/src/store/settings.ts:252-362 | the lists are emptied, synced with the local Ollama models when an enabled provider is Ollama and listing did not throw, then rebuilt by the loop over the enabled providers, skipping Ollama. Afterwards they line up by provider id with unique ids; they line up by position when no sync ran; after a sync Ollama's entry comes first with every local model, and it has an enabled entry exactly when there is a local model |
| Settings.SettingsStore.SyncOllamaModelsToGlobal | src/renderer/src/store/settings.ts:480-534 | the in-place `findIndex`/`push` updates compute `SyncOllama` of the old lists |
| Settings.SettingsStore.HandleOllamaModelPullEvent | src/renderer/src/store/settings.ts:553-569 | events for another id or without a model name are ignored. With `total > 0` the progress is set; otherwise a status containing `manifest` sets 1; otherwise nothing changes. Other models' entries are untouched |

## Left out

- Provider adapters, `fetchModels`, the network and the non-streaming methods (`generateCompletion`, `summaries`, `generateText`, `suggestions`, `check`, custom-model and Ollama pass-throughs) are calls into code that is not part of this model.
- A thrown value is an `Error` object, with its name and message, or any other value, given by its `String` text. Subclasses that override `toString` are not modelled.
- The event bus is an append-only log. Logging calls are not modelled.
- Async interleavings: a session runs to completion inside one method call. The only interleaving is the `Interruption` described above. Other callers touching the tables while a session is suspended are not modelled.
- LlmProvider.LlmProviderPresenter.StopAllStreams: the stopping order is an existential ghost output; the model does not state that it is the Map's insertion order.
- `setProviders` runs `stopAllStreams` without awaiting it. Every `stopStream` completes synchronously, so the model runs the stops to completion first.
- JSON: message content is opaque. Metadata is a map of JSON values when it parses to an object. Other JSON values and unparsable text are distinguished but not parsed. Spreading a non-object JSON value contributes no keys; the index keys of spread strings and arrays are not modelled.
- The SQLite presenter is a sequence of rows. Fresh message ids and creation times are parameters. The two positional zeros of the insert are taken to be the token count and the context-edge flag. An empty conversation's maximum `order_seq` is 0, which gives the same first `order_seq` (1) as JavaScript's `null + 1`.
- Messages.MessageManager.SendMessage: the `Failed to create message` error cannot occur once the row is stored, so it is not modelled.
- Messages.ContextIsLastOfThread: the window is the tail of the ascending order only when `(created_at, order_seq)` keys are distinct. The stable descending sort keeps ties in their stored order, so the code does not promise more; the model follows the code.
- `deleteMessage`, `getMessageVariants`, `getMainMessageByParentId` and `getLastUserMessage` are outside the modelled core.
- Settings lists are values. The JavaScript lists share model objects between the full and the enabled list. Every update that writes a flag also rewrites the enabled entry, so the modelled lists end in the same state, but aliasing itself is not modelled.
- The `getModelList` fallback of both refreshes is part of the configuration and adapter I/O. The online, custom and status lookups are function parameters.
- The Ollama override in `refreshAllModels` (settings.ts:354-357) is unreachable because Ollama is skipped at line 265. The model has no such branch.
- `refreshOllamaModels` is modelled by its effect on the lists: the listed local model names are a parameter of `RefreshAllModels`, `None` when either listing call throws (then nothing is synced). The `ollamaRunningModels` and `ollamaLocalModels` refs themselves are not modelled. In index.ts, `listOllamaModels` would yield no model, because no Ollama adapter is ever built (index.ts:146-150 and 477-496); the model keeps the names general.
- Settings.OllamaAsGlobal: the `ollamaModel` payload that the sync attaches to each model is not modelled; a stored model is kept whole, as the spread of `existingModel` overrides every default.
- `initOrUpdateSearchAssistantModel`, called at the end of the sync, and the search-assistant re-check at the end of `refreshAllModels` are left out; they lie outside the modelled list bookkeeping (the priority search they use is modelled).
- The `setTimeout` that deletes a finished pull's entry and refreshes Ollama models is a timer, so it is not modelled.
- Exceptions from the presenters inside the refreshes' `try` are not modelled. In `refreshAllModels` every await of a provider's step comes before that step's writes, so a failing provider would leave the lists as they were before its step. In `refreshProviderModels` the full and enabled lists are written (settings.ts:194-217) before the custom models are fetched (line 220), so a failure there would leave those two lists updated and the custom list as it was.
- Settings.Progress: the division and rounding use exact reals, not IEEE doubles. `Math.round` is `floor(x + 0.5)`.
- Lower-casing covers ASCII letters only.
