# Prompt area, confirmation store and chat server API — a Dafny model

This project models three pieces of client logic of the chat front end:

- **The prompt area** (`src/features/chat/prompt-area.tsx`). This is the compose box of the chat screen. It keeps a
  per-conversation draft table, keyed by the conversation id or by the sentinel `"new_chat"`. Drafts are saved by a
  debounced callback, which a submit suspends until the next keystroke. The module also covers when the send button
  and the Enter key may submit, what a submit sends, how the selected model is kept consistent with the fetched model
  list, and the conversation-list entry derived when a send finishes.
- **The confirmation-dialog store** (`src/components/confirmation-dialog.tsx`). This is one global record of dialog
  fields with `openConfirmation` and `closeConfirmation`. Each action merges a partial record into the current one.
- **The chat server API** (`src/features/chat/api/server.ts`). It maps the fetched model list into `AiModel` records
  and derives `group` and `provider` from the model name. It also gates the streaming request: a body that fails JSON
  parsing or schema validation is rejected with a `bad_request` error before anything is sent upstream.

Modules, one per file:

| file | module | models |
|---|---|---|
| `wrappers.dfy` | `Wrappers` | `Option` / `Result` for nullable values and thrown errors |
| `js_strings.dfy` | `JsStrings` | `String.prototype.trim` (ECMAScript whitespace and line terminators) and `includes` |
| `chat_types.dfy` | `ChatTypes` | `AiModel`, the fields of a finished message that are read, the conversation-list item |
| `drafts.dfy` | `Drafts` | the draft table as a value: key, find, filter, the save update, and their laws |
| `gating.dfy` | `Gating` | `isSubmitDisabled`, `isBusy`, the Enter-key handler, the submit/stop button click |
| `conversation_summary.dfy` | `ConversationSummary` | the `onFinish` derivation of the conversation-list item |
| `model_selection.dfy` | `ModelSelection` | the provider state (class) and the model-selection reconciliation |
| `prompt_input.dfy` | `PromptInput` | the input component (class): input, drafts, save suspension, sends, cache upserts |
| `confirmation.dfy` | `Confirmation` | the confirmation store (class) and its shallow-merge semantics |
| `chat_server.dfy` | `ChatServer` | the model DTO mapping and the validate-then-forward gate of `streamMessage` |

State the source changes in place becomes a class. `PromptInput.PromptAreaInput` holds the input, the draft table,
the `shouldSave` flag and the pending debounced save. `ModelSelection.PromptAreaProvider` holds the model list and the
selection. `Confirmation.ConfirmationStore` holds the dialog fields. Each method's postcondition is stated against a
pure function on values, and the properties are proved about those functions.

The chat store's `sendMessage` is an external call. Each call is recorded in `sendCalls`, with the conversation id
that its `onFinish` callback closes over. Cache upserts are recorded in `cacheUpserts`.

Two behaviours of the code are worth knowing:

- The draft is cleared when the message is submitted (`prompt-area.tsx:276-278`), before any response arrives.
- `handleSubmit` never looks at the status. Only the button's `disabled` flag (`prompt-area.tsx:190`, `:380`) and
  the Enter guard (`:290`) do. While streaming, a click on the button calls `stop()` (`:381`). Because the button is
  an enabled submit button, the same click also submits the form. So non-blank text typed during a stream is passed
  to the store's `sendMessage` (`Gating.StopClickAlsoSubmits`).

## Model

| member | source | states |
|---|---|---|
| `JsStrings.TrimStart` | src/features/chat/prompt-area.tsx:216 | the result is the suffix of the input that starts at its first non-whitespace character; everything dropped is whitespace |
| `JsStrings.TrimEnd` | src/features/chat/prompt-area.tsx:216 | the result is the prefix of the input that ends at its last non-whitespace character; everything dropped is whitespace |
| `JsStrings.Trim` | src/features/chat/prompt-area.tsx:244-246 | `trim()` yields a contiguous slice of the input with only whitespace around it, and the slice neither starts nor ends with whitespace |
| `JsStrings.TrimEmptyIffBlank` | src/features/chat/prompt-area.tsx:216 | `content.trim()` is empty exactly when every character is whitespace |
| `JsStrings.TrimIdempotent` | src/features/chat/prompt-area.tsx:246 | trimming the trimmed message changes nothing |
| `JsStrings.Includes` | src/features/chat/api/server.ts:56 | `name.includes("gpt")` holds exactly when "gpt" occurs at some index of the name (case-sensitive) |
| `Drafts.ChatKey` | src/features/chat/prompt-area.tsx:189 | the key is never empty: a present non-empty conversation id is used as is, and a missing or empty one becomes "new_chat" |
| `Drafts.FindIndex` | src/features/chat/prompt-area.tsx:223 | returns the first index whose draft has the key, or -1 exactly when no draft has it |
| `Drafts.FindDraft` | src/features/chat/prompt-area.tsx:197-201 | a found draft is the first draft in the table with the key; nothing is found exactly when no draft has the key |
| `Drafts.RemoveKey` | src/features/chat/prompt-area.tsx:218 | a draft survives the filter exactly when it was in the table and its key differs |
| `Drafts.SavedDrafts` | src/features/chat/prompt-area.tsx:216-238 | blank content removes the key's drafts; otherwise an existing draft is replaced at the same index (same length, all other entries unchanged, content untrimmed), or one draft is appended at the end |
| `Drafts.RemoveKeyAppend` | src/features/chat/prompt-area.tsx:218 | filtering commutes with concatenation, so the drafts that stay keep their original order |
| `Drafts.RemoveKeyAbsent` | src/features/chat/prompt-area.tsx:218 | removing a key no draft has leaves the table unchanged |
| `Drafts.RemoveKeyAt` | src/features/chat/prompt-area.tsx:278 | with one draft per key, clearing a key deletes exactly the draft at its index and keeps the rest in order |
| `Drafts.RemoveKeyKeepsUnique` | src/features/chat/prompt-area.tsx:278 | clearing a key keeps at most one draft per key |
| `Drafts.SaveKeepsUnique` | src/features/chat/prompt-area.tsx:222-238 | a save keeps at most one draft per key |
| `Drafts.SaveThenFind` | src/features/chat/prompt-area.tsx:213-240 | after a save, loading the key gives exactly the saved draft, or nothing when the content was blank |
| `Drafts.SaveKeepsOtherKeys` | src/features/chat/prompt-area.tsx:216-238 | a save for one key leaves what every other key loads unchanged |
| `Drafts.RemoveKeyFindOther` | src/features/chat/prompt-area.tsx:218 | clearing one key leaves what every other key loads unchanged |
| `Gating.IsSubmitDisabled` | src/features/chat/prompt-area.tsx:190 | the button is disabled only for an empty input or while loading, and never while streaming |
| `Gating.IsBusy` | src/features/chat/prompt-area.tsx:191 | busy exactly when the status is not idle |
| `Gating.OnKeyDown` | src/features/chat/prompt-area.tsx:288-298 | only an unshifted Enter can submit the form |
| `Gating.EnterSubmitsOnlyWhenIdle` | src/features/chat/prompt-area.tsx:288-298 | Enter submits exactly when Shift is not held and the session is neither loading nor streaming |
| `Gating.SubmitEnabledCases` | src/features/chat/prompt-area.tsx:190 | the button is enabled exactly while streaming or while idle with a non-empty input (`!input` tests the untrimmed text) |
| `Gating.OnSubmitButtonClick` | src/features/chat/prompt-area.tsx:379-383 | `stop()` is called exactly while streaming, the form is submitted exactly when the button is enabled, and so a click that stops the stream also submits the form |
| `Gating.NothingSubmitsWhileLoading` | src/features/chat/prompt-area.tsx:190-191 | while loading, neither the button nor the Enter key submits |
| `Gating.StopClickAlsoSubmits` | src/features/chat/prompt-area.tsx:379-383 | while streaming, Enter keeps its default, and a button click both calls `stop()` and submits the form |
| `ConversationSummary.FinishedItem` | src/features/chat/prompt-area.tsx:254-267 | an item exists iff the finished message or the captured conversation id supplies a non-empty id, and then the message's id wins; the title is the server title when non-empty, else the sent text; both timestamps are the clock readings |
| `ConversationSummary.SentTitleNonEmpty` | src/features/chat/prompt-area.tsx:244-261 | for non-blank input, the derived item's title is never empty |
| `ModelSelection.HasModelId` | src/features/chat/prompt-area.tsx:120 | `models.some(m => m.id === id)` holds exactly when some model has that id |
| `ModelSelection.Reconciled` | src/features/chat/prompt-area.tsx:115-124 | an empty list gives ""; a selection among the ids stays; any other selection becomes the first model's id |
| `ModelSelection.ReconciledIsValid` | src/features/chat/prompt-area.tsx:115-124 | after reconciling, the selection is "" or a model id, and it is a model id whenever the list is non-empty |
| `ModelSelection.ReconcileIdempotent` | src/features/chat/prompt-area.tsx:115-124 | reconciling twice equals reconciling once, so the effect settles after at most one change |
| `ModelSelection.SelectionAfterFetch` | src/features/chat/prompt-area.tsx:101-102 | a successful non-empty fetch keeps a non-empty selection and otherwise picks the first model's id; an empty list changes nothing |
| `ModelSelection.FetchThenReconcile` | src/features/chat/prompt-area.tsx:101-124 | for any non-empty fetched list, the first pick followed by the reconciliation effect keeps the previous selection exactly when it is non-empty and names a fetched model, and selects the first model otherwise |
| `ModelSelection.StaleSelectionSurvivesPick` | src/features/chat/prompt-area.tsx:101-124 | a non-empty selection naming no fetched model survives the first pick, and only the reconciliation effect changes it |
| `ModelSelection.PromptAreaProvider.constructor` | src/features/chat/prompt-area.tsx:88-91 | starts with no models, selection "", search off and the agent id from the URL |
| `ModelSelection.PromptAreaProvider.ModelsFetched` | src/features/chat/prompt-area.tsx:96-106 | a failed fetch changes nothing; a successful one stores the list and applies the first pick |
| `ModelSelection.PromptAreaProvider.Reconcile` | src/features/chat/prompt-area.tsx:115-124 | the effect leaves the reconciled selection, which is "" or a model id |
| `ModelSelection.PromptAreaProvider.SelectModel` | src/features/chat/prompt-area.tsx:409 | the selector stores the picked id |
| `ModelSelection.PromptAreaProvider.ToggleSearch` | src/features/chat/prompt-area.tsx:371 | the search button flips the web-search flag |
| `PromptInput.PromptAreaInput.ChatId` | src/features/chat/prompt-area.tsx:189 | the component's draft key is the draft-table key of the store's conversation id (`Drafts.ChatKey`): that id when non-empty, else "new_chat" |
| `PromptInput.LoadedInput` | src/features/chat/prompt-area.tsx:196-204 | the input shows the key's draft when one exists and is left alone otherwise |
| `PromptInput.PromptAreaInput.constructor` | src/features/chat/prompt-area.tsx:178-204 | on mount, the stored drafts are read, saving is enabled and the input shows the current key's draft, if any |
| `PromptInput.PromptAreaInput.StoreChanged` | src/features/chat/prompt-area.tsx:182-204 | a new store status or id is taken over, and the draft is loaded only when the draft key changed |
| `PromptInput.PromptAreaInput.HandleInputChange` | src/features/chat/prompt-area.tsx:281-286 | a keystroke re-enables saving, sets the input and schedules a save under the key at that moment, replacing any pending one |
| `PromptInput.PromptAreaInput.DebounceElapsed` | src/features/chat/prompt-area.tsx:213-240 | the pending save runs unless saving was suspended; it keeps at most one draft per key |
| `PromptInput.PromptAreaInput.HandleSubmit` | src/features/chat/prompt-area.tsx:242-279 | whitespace-only input changes nothing; otherwise the trimmed text is sent once, the input becomes "", saving is suspended and the key's draft is gone |
| `PromptInput.PromptAreaInput.SendFinished` | src/features/chat/prompt-area.tsx:254-267 | a finished send upserts its derived item into the cache once, or nothing when no id is known |
| `PromptInput.DraftRoundTrip` | src/features/chat/prompt-area.tsx:213-240 | typing and letting the debounce fire stores the text under the conversation's key, or removes the draft when the text is blank |
| `PromptInput.SubmitDropsPendingSave` | src/features/chat/prompt-area.tsx:214-278 | a save still pending at submit does not bring the draft back, and only non-blank text is sent |
| `PromptInput.KeystrokeResumesSaving` | src/features/chat/prompt-area.tsx:281-286 | after a submit, the next keystroke's save is stored again |
| `ChatServer.ToAiModel` | src/features/chat/api/server.ts:53-58 | id, name and description are copied; group is "OpenAI" iff the name contains "gpt", else "Other"; provider is "openai" iff the same, else "other" |
| `ChatServer.MapModels` | src/features/chat/api/server.ts:53-59 | the mapping keeps length and order and maps each element on its own |
| `ChatServer.MappedModelsAgree` | src/features/chat/api/server.ts:54-57 | in the mapped list, ids are the fetched ids, and group is "OpenAI" exactly when provider is "openai" |
| `ChatServer.StreamRequest` | src/features/chat/api/server.ts:7-24 | a request is made iff the body parses and validates, and it is a JSON POST to the stream path carrying the validated body; otherwise the error is `bad_request` / "Invalid request body.", with the message of the step that failed (parsing or validation) as cause |
| `ChatServer.StreamMessage` | src/features/chat/api/server.ts:7-27 | it fails exactly when the gate rejects, with the gate's `bad_request` error, and otherwise returns the upstream response unchanged |
| `ChatServer.RejectedBodyNeverFetched` | src/features/chat/api/server.ts:10-17 | a rejected body never reaches the upstream API: the outcome does not depend on the fetch |
| `Confirmation.Initial` | src/components/confirmation-dialog.tsx:43-51 | the store starts closed, with no texts, a normal action, no-op callbacks and no waitForAction |
| `Confirmation.Merge` | src/components/confirmation-dialog.tsx:53-74 | the store's `set` merges shallowly: a field listed in the partial state takes its value, any other keeps the old one, and an empty partial state changes nothing |
| `Confirmation.OpenPatch` | src/components/confirmation-dialog.tsx:53-63 | openConfirmation lists every field, sets open to true and passes onCancel through as given |
| `Confirmation.ClosePatch` | src/components/confirmation-dialog.tsx:65-74 | closeConfirmation lists every field except waitForAction and sets open to false |
| `Confirmation.Opened` | src/components/confirmation-dialog.tsx:52-63 | open is true; title, description, labels and onAction are copied; onCancel is stored as given, possibly absent; actionState defaults to normal and waitForAction to false |
| `Confirmation.Closed` | src/components/confirmation-dialog.tsx:64-74 | closing gives the initial state, whatever the prior state, except that waitForAction is kept |
| `Confirmation.OpenOverwrites` | src/components/confirmation-dialog.tsx:52-63 | a second open overwrites every field the first set; opening does not depend on the prior state |
| `Confirmation.CloseIdempotent` | src/components/confirmation-dialog.tsx:64-74 | closing twice equals closing once |
| `Confirmation.CloseKeepsWaitForAction` | src/components/confirmation-dialog.tsx:52-74 | a close after an open keeps the open's (defaulted) waitForAction, so the store does not return to its initial state |
| `Confirmation.ConfirmationStore.constructor` | src/components/confirmation-dialog.tsx:43-51 | the store starts closed, with no texts, a normal action, no-op callbacks and no waitForAction |
| `Confirmation.ConfirmationStore.Set` | src/components/confirmation-dialog.tsx:53-63 | the store's fields are the given state afterwards |
| `Confirmation.ConfirmationStore.OpenConfirmation` | src/components/confirmation-dialog.tsx:52-63 | the new state is the shallow merge of the open's partial state into the old one |
| `Confirmation.ConfirmationStore.CloseConfirmation` | src/components/confirmation-dialog.tsx:64-74 | the new state is the shallow merge of the close's partial state; waitForAction is untouched |

## Left out

- The chat store is not part of this model. It provides `sendMessage`, `stop`, `status` and `conversationId` and
  lives in `./stores/chat-store-provider`. Its status and conversation id are inputs (`StoreChanged`), its
  `sendMessage` calls are recorded, and its status transitions are not modelled. `Status` has the three values the
  prompt area tests: idle, loading and streaming.
- The file-upload hook (`@/hooks/use-file-upload`) and the file preview are not part of this model.
- Debounce timing: the 300 ms window is not modelled. Each keystroke replaces the pending save, and
  `DebounceElapsed` is the timer firing, as one atomic step. Whether the hook library really coalesces across
  re-renders is library behaviour outside this model.
- Clocks: `Date.now()` and the two `new Date().toISOString()` readings are parameters.
- `localStorage` persistence and its failures are left out: the draft table is an in-memory sequence.
- The React Query cache is left out: `upsertConversationItemInCache` is recorded as an appended item, not merged
  into a list.
- Browser side effects are left out: `window.history.replaceState`, the CSS variable written on height change,
  `toast` messages, `console` logging and the `onError` callback.
- `PromptAreaProvider.ModelsFetched`: the `isMounted` guard is not modelled. A fetch that completes after unmount is
  simply never delivered.
- `ChatServer.ToAiModel`: fields beyond the five `AiModel` fields, which the object spread would also copy, are not
  modelled.
- The network calls are parameters: `fetchWithAuth`, `request.json()`, the unseen request-body schema and
  `JSON.stringify`. `getMessages`, the `action.ts` wrapper and the agents feature are thin network or rendering code.
- All JSX rendering is left out: the welcome message, suggestions, model selector layout, file preview cards and the
  dialog markup.
- `Gating.OnKeyDown`: when the text area has no enclosing form, `requestSubmit` is skipped. The model assumes the form
  is always present, as it is in this component.
- `PromptAreaInput.HandleSubmit`: the send options are a parameter. The source builds them from the provider's
  `isSearchEnabled`, `agentId` and `selectedModel` (`prompt-area.tsx:249-253`). The model keeps the provider
  (`ModelSelection.PromptAreaProvider`) and the input as two separate objects, so the link between them is left to
  the caller.
