# Synro chat core, modelled in Dafny

Synro is a Next.js chat client. It talks to five model providers: Google Gemini, OpenAI, Anthropic, DeepSeek and Qwen. This project models the parts of it that decide things:

- **The client store** (`ChatStore`). It holds the conversations, the active conversation, the selected provider and model, and the encrypted key for each provider. It is a class, with one method per store action. Each action's list or map transform is a function, and lemmas state properties of those functions.
- **The chat endpoint** (`ChatRoute`). The `POST /api/chat` handler is a method with early returns. It checks the parameters, then resolves the key: it decrypts the key if one was supplied, and falls back to a server default for Google only. It answers 401 when there is no key, then builds the model through its own provider switch and streams. Any thrown value becomes a 500. The method also returns the trace of foreign steps it started, so the contract can say that nothing is decrypted or built on the early-exit paths.
- **The provider factory** (`Factory`) and **the shared types and provider registry** (`Types`).
- **The assistant tools** (`Tools`):
  - the calculator's character sanitiser and its result shapes;
  - the clock tool's default time zone;
  - the web-search stub.
- **The client send path** (`UseChat`):
  - the two guards;
  - creating a conversation when none is active;
  - the title rule;
  - the request body, which carries the key only when one is stored.
- **Three UI components and the middleware**:
  - `ApiKeyManager`: key save, reveal/hide, masking and model chips;
  - `ModelSelector`: the providers offered, the menu rows and their highlighting, and choosing a row;
  - `ChatInputBox`: the controlled and uncontrolled value, the submit guard, the Enter key and the height clamp;
  - `Middleware`: the `/dashboard` login redirect.

Two helper modules carry JavaScript semantics the rest relies on:

- `Js`:
  - thrown values and outcomes;
  - string truthiness;
  - the ECMAScript whitespace class shared by `\s` and `String.prototype.trim`;
  - `trim` itself;
  - `startsWith`.
- `Seqs`: order-preserving filtering, which covers both `Array.prototype.filter` and a global regular-expression delete, plus stripping of leading and trailing runs.

Foreign code is passed in as function parameters:

- the AES cipher;
- the server's `decrypt`;
- the AI SDK's message conversion;
- the calculator's `Function` evaluation;
- the locale clock formatting.

Clients and models built by the SDK are modelled as descriptors: the SDK, the key, the base URL, the transport and the API entry point. Ids and timestamps are parameters.

Behaviour worth noting:

- The route's 400 check `!messages` rejects only a falsy `messages` value. An empty array is truthy, so it passes.
- The sanitiser keeps whitespace. `DROP TABLE users; 1+1` sanitises to `   1+1`, with three spaces in front.
- `getCurrentTime` has no `catch`, so an unknown time zone makes it throw.
- The factory passes any key through, the empty one included. Only the route rejects a missing key.

## Model

| member | source | states |
|---|---|---|
| Seqs.Filter | src/stores/chatStore.ts:85 | the kept elements all satisfy the predicate and are no more than the input |
| Seqs.FilterIsSubsequence | src/stores/chatStore.ts:85 | filtering is an order-preserving deletion |
| Seqs.FilterCount | src/stores/chatStore.ts:85 | each kept element occurs as often as in the input; each dropped one never |
| Seqs.FilterMembership | src/components/chat/ModelSelector.tsx:15-17 | an element is in the filter iff it is in the input and kept |
| Seqs.FilterAppend | src/lib/ai/mcp/tools.ts:31 | filtering distributes over concatenation |
| Seqs.FilterAllKept | src/lib/ai/mcp/tools.ts:31 | a sequence whose elements are all kept is unchanged |
| Seqs.FilterNoneKept | src/lib/ai/mcp/tools.ts:31 | a sequence none of whose elements is kept filters to empty |
| Seqs.FilterIdempotent | src/lib/ai/mcp/tools.ts:31 | filtering twice equals filtering once |
| Seqs.FilterDistinct | src/components/chat/ModelSelector.tsx:15-17 | filtering a repetition-free sequence keeps it repetition-free |
| Seqs.Leading | src/components/ui/ChatInputBox.tsx:41 | the leading run: all its elements are stripped, and the next one is not |
| Seqs.Trailing | src/components/ui/ChatInputBox.tsx:41 | the trailing run: all its elements are stripped, and the one before is not |
| Seqs.StripShape | src/components/ui/ChatInputBox.tsx:41 | stripping leaves an infix, surrounded only by stripped elements, that neither starts nor ends with one |
| Seqs.StripEmptyIff | src/components/ui/ChatInputBox.tsx:41 | stripping leaves nothing iff every element is stripped |
| Seqs.StripIdempotent | src/components/ui/ChatInputBox.tsx:41 | stripping twice equals stripping once |
| Js.TrimShape | src/components/settings/ApiKeyManager.tsx:37 | `trim()` is an infix between two whitespace runs, neither starting nor ending with whitespace |
| Js.TrimEmptyIffAllWhitespace | src/components/settings/ApiKeyManager.tsx:37 | `trim()` is falsy iff the string is all whitespace |
| Js.TrimIdempotent | src/components/ui/ChatInputBox.tsx:41-42 | trimming twice equals trimming once |
| Types.ParseProvider | src/types/index.ts:2 | a tag parses to exactly the provider that spells it, and nothing else parses |
| Types.TagInjective | src/types/index.ts:2 | different providers have different tags |
| Types.RegistryHasEveryProvider | src/types/index.ts:34-62 | the registry has one entry per tag, and its enumeration lists each of the five tags once |
| Types.ModelListsWellFormed | src/types/index.ts:36-60 | each provider's model list is non-empty and without repetitions |
| Types.BaseUrlOnlyForCompatibleProviders | src/types/index.ts:52-61 | only deepseek and qwen carry a base URL, with the exact endpoints the dispatchers hard-code |
| Types.DefaultModelOffered | src/types/index.ts:65-66 | the default model is in the default provider's list |
| ChatStore.AppendMessage | src/stores/chatStore.ts:45-52 | the message goes to the end of each matching conversation, and that conversation's `updatedAt` is refreshed; the others and the length are unchanged |
| ChatStore.ReplaceContent | src/stores/chatStore.ts:60-62 | only the content of messages with that id changes; count, order, ids, roles, tool calls and times stay |
| ChatStore.UpdateContent | src/stores/chatStore.ts:54-66 | only the matching conversation's messages change; its `updatedAt` and other fields stay |
| ChatStore.AppendMessageNoMatch | src/stores/chatStore.ts:45-52 | adding to an id no conversation has changes nothing |
| ChatStore.RemoveConversation | src/stores/chatStore.ts:85 | the list does not grow, and no remaining conversation has the deleted id |
| ChatStore.RemoveConversationSpec | src/stores/chatStore.ts:85 | deletion removes every conversation with that id and keeps the rest, in order and with their multiplicity |
| ChatStore.RemoveAfterAdd | src/stores/chatStore.ts:39-88 | deleting a just-added conversation with a fresh id restores the previous list |
| ChatStore.ReplaceContentOfAppended | src/stores/chatStore.ts:54-66 | updating the content of the last, freshly-id'd message equals having appended it with that content |
| ChatStore.UpdateAfterAppend | src/stores/chatStore.ts:45-66 | add-then-update of a new message equals adding it with its final content |
| ChatStore.Store.constructor | src/stores/chatStore.ts:31-35 | initial state: no conversations, no active id, openai / gpt-4o, no keys |
| ChatStore.Store.Rehydrated | src/stores/chatStore.ts:90-96 | a reload restores exactly the persisted keys, provider and model, and no conversations |
| ChatStore.Store.Partialize | src/stores/chatStore.ts:92-96 | the persisted snapshot is exactly the keys, the provider and the model; conversations and the active id are not persisted |
| ChatStore.Store.SetCurrentConversation | src/stores/chatStore.ts:37 | only the active id changes |
| ChatStore.Store.AddConversation | src/stores/chatStore.ts:39-43 | the conversation is prepended, the old order follows it, and its id becomes active |
| ChatStore.Store.AddMessage | src/stores/chatStore.ts:45-52 | conversations become `AppendMessage` of the old ones; nothing else changes |
| ChatStore.Store.UpdateMessage | src/stores/chatStore.ts:54-66 | conversations become `UpdateContent` of the old ones; nothing else changes |
| ChatStore.Store.SetProvider | src/stores/chatStore.ts:68 | only the provider changes; the model is not adjusted |
| ChatStore.Store.SetModel | src/stores/chatStore.ts:69 | only the model changes |
| ChatStore.Store.SetApiKey | src/stores/chatStore.ts:71-74 | exactly that provider's entry is set; all other entries are unchanged |
| ChatStore.Store.RemoveApiKey | src/stores/chatStore.ts:76-81 | exactly that provider's entry is deleted; all other entries are unchanged |
| ChatStore.Store.DeleteConversation | src/stores/chatStore.ts:83-88 | conversations with that id are removed; the active id is cleared iff it was the deleted one |
| Factory.CreateProvider | src/lib/ai/providers/factory.ts:7-33 | throws `Unknown provider: p` iff the tag is unknown; otherwise the key goes through unchecked, and only the two compatible providers get a base URL, on the OpenAI SDK |
| Factory.GetModel | src/lib/ai/providers/factory.ts:35-38 | the model id goes through uninterpreted, on the default API of `createProvider`'s client |
| Factory.SdkPerProvider | src/lib/ai/providers/factory.ts:7-28 | openai, anthropic and google use their own SDKs; deepseek and qwen use the OpenAI SDK |
| ChatRoute.MissingParameters | src/app/api/chat/route.ts:85 | the request is incomplete iff `messages` is absent, or `model` or `provider` is absent or empty |
| ChatRoute.Failure | src/app/api/chat/route.ts:121-127 | a 500 JSON answer `Failed to process chat request`, whose details are the error's message for an `Error` and `Unknown error` for any other thrown value |
| ChatRoute.CreateProxyFetch | src/app/api/chat/route.ts:14-29 | a transport exists iff a proxy is configured and the agent can be built |
| ChatRoute.GetModel | src/app/api/chat/route.ts:31-73 | the proxy is attached only for openai, anthropic and google; deepseek and qwen use their fixed endpoints and `.chat`; an unknown tag throws |
| ChatRoute.DispatchersAgree | src/app/api/chat/route.ts:37-68 | the route's switch and the factory's accept the same tags and build the same clients, apart from the transport and the `.chat` entry point |
| ChatRoute.ResolveKey | src/app/api/chat/route.ts:92-100 | a supplied key is decrypted; the server default is used only when no key results, for google, and when it is configured |
| ChatRoute.DefaultKeyOnlyForGoogle | src/app/api/chat/route.ts:98-100 | no provider other than google ever receives the server default key |
| ChatRoute.Post | src/app/api/chat/route.ts:75-129 | 400 iff a parameter is missing, with no step taken; decrypt runs iff a key is supplied; 401 with the provider named iff no key results, before any model is built; every throw becomes 500 with the error's message or `Unknown error`; a stream is returned only with a non-empty key |
| Tools.Sanitize | src/lib/ai/mcp/tools.ts:31 | the sanitised text holds only digits, `+-*/().%` and whitespace |
| Tools.SanitizeSpec | src/lib/ai/mcp/tools.ts:31 | the sanitised text is a subsequence of the input, keeps every allowed character as often as it occurs, and contains no other character |
| Tools.SanitizeIdempotent | src/lib/ai/mcp/tools.ts:31 | sanitising twice equals sanitising once |
| Tools.SanitizeKeepsArithmetic | src/lib/ai/mcp/tools.ts:31 | an expression made only of allowed characters passes unchanged |
| Tools.SanitizeAppend | src/lib/ai/mcp/tools.ts:31 | sanitising distributes over concatenation |
| Tools.SanitizeDropsWord | src/lib/ai/mcp/tools.ts:31 | a word without allowed characters vanishes |
| Tools.SanitizeStripsInjection | src/lib/ai/mcp/tools.ts:31 | words such as `DROP TABLE users;` vanish, but the spaces between them stay in front of the arithmetic |
| Tools.Calculate | src/lib/ai/mcp/tools.ts:28-37 | the original expression is echoed; the result is returned iff evaluating the sanitised text succeeds; otherwise the error is `Invalid expression` |
| Tools.CalculateDependsOnlyOnSanitized | src/lib/ai/mcp/tools.ts:31-33 | two expressions that sanitise alike get the same outcome |
| Tools.GetCurrentTime | src/lib/ai/mcp/tools.ts:12-19 | the time zone defaults to `UTC` and is echoed; formatting errors propagate |
| Tools.WebSearch | src/lib/ai/mcp/tools.ts:47-54 | the query is echoed and there are no results |
| Tools.WebSearchIgnoresLimit | src/lib/ai/mcp/tools.ts:45-54 | the result does not depend on `limit` |
| UseChat.Title | src/hooks/useChat.ts:70 | the content itself when it has at most 30 characters; otherwise its first 30 and `...`; never longer than 33 |
| UseChat.IsLoading | src/hooks/useChat.ts:48 | loading iff the session is submitted or streaming, never when ready or failed |
| UseChat.DisplayedError | src/hooks/useChat.ts:49 | the session's error message when it is non-empty, otherwise the local error |
| UseChat.RequestBody | src/hooks/useChat.ts:24-37 | the body carries model and provider tag, and carries `encryptedApiKey` iff the stored key is non-empty |
| UseChat.SendGuard | src/hooks/useChat.ts:53-62 | hydration is checked first; then a missing key blocks every provider but google |
| UseChat.GuardMatchesRoute | src/hooks/useChat.ts:59-62 | the client body is complete iff a model is selected; when the client blocks for a missing key, the route would have resolved no key |
| UseChat.NewConversation | src/hooks/useChat.ts:68-75 | the new conversation has the fresh id, the title rule's title (at most 33 characters), the current model, no messages, and creation and update time both `now` |
| UseChat.Hydrated | src/hooks/useChat.ts:53 | the guard passes only for a flag that is present and true |
| UseChat.SendRefusedAsWritten | src/hooks/useChat.ts:53 | with the flag as the store provides it (undeclared, so `undefined`), every send is refused with the loading notice, whatever the keys and provider |
| UseChat.ChatHook.constructor | src/hooks/useChat.ts:22 | no local error, no session error, nothing sent |
| UseChat.ChatHook.HandleSendMessage | src/hooks/useChat.ts:51-82 | a blocked send only sets the guard's error; an accepted one clears both errors, creates a conversation with the title, the current model and no messages iff none is active, and sends the text |
| UseChat.ChatHook.CreateNewChat | src/hooks/useChat.ts:84-86 | no conversation is active afterwards, and nothing is deleted |
| ApiKeyManager.DecryptKey | src/components/settings/ApiKeyManager.tsx:19-26 | a throwing cipher yields `''`; otherwise the plaintext |
| ApiKeyManager.MaskedKey | src/components/settings/ApiKeyManager.tsx:49-55 | hidden: twenty bullets; shown: the plaintext, or `解密失败` when it is empty; never empty |
| ApiKeyManager.HiddenKeyRevealsNothing | src/components/settings/ApiKeyManager.tsx:49-54 | while hidden, the display depends on neither the key nor the cipher |
| ApiKeyManager.Toggled | src/components/settings/ApiKeyManager.tsx:45-47 | only that provider's flag flips; every other flag stays |
| ApiKeyManager.ToggleTwice | src/components/settings/ApiKeyManager.tsx:45-47 | toggling twice restores every flag |
| ApiKeyManager.ModelChips | src/components/settings/ApiKeyManager.tsx:148-160 | the first min(3, n) models, plus a `+(n-3)` marker iff n > 3; names and marker together count n |
| ApiKeyManager.ChipsAccountForEveryModel | src/components/settings/ApiKeyManager.tsx:148-160 | every registry card shows at least one chip; the marker counts exactly the models after the chips; each model is either a chip or counted by the marker, never both |
| ApiKeyManager.KeyManager.constructor | src/components/settings/ApiKeyManager.tsx:29-32 | nothing is being edited, the input is empty, no key is shown |
| ApiKeyManager.KeyManager.BeginEdit | src/components/settings/ApiKeyManager.tsx:111 | that provider becomes the edited one |
| ApiKeyManager.KeyManager.SetInputKey | src/components/settings/ApiKeyManager.tsx:133 | the input takes the typed text |
| ApiKeyManager.KeyManager.HandleSave | src/components/settings/ApiKeyManager.tsx:36-43 | does nothing unless a provider is edited and the trimmed input is non-empty; then stores the encrypted trimmed key under it and clears the edit and the input |
| ApiKeyManager.KeyManager.ToggleShowKey | src/components/settings/ApiKeyManager.tsx:45-47 | the flags become `Toggled` of the old ones |
| ModelSelector.AvailableProviders | src/components/chat/ModelSelector.tsx:15-17 | a provider is offered iff its stored key is truthy, in registry order, each once |
| ModelSelector.Rows | src/components/chat/ModelSelector.tsx:60-80 | one row per registry model, in order, highlighted iff provider and model both equal the selection |
| ModelSelector.GroupsOf | src/components/chat/ModelSelector.tsx:57-60 | one group per offered provider, with its name and its registry models |
| ModelSelector.MenuOf | src/components/chat/ModelSelector.tsx:54-85 | the configure prompt iff no key is stored; otherwise the groups of the offered providers |
| ModelSelector.RowsComeFromRegistry | src/components/chat/ModelSelector.tsx:57-60 | every row's model is in its provider's registry list, and that provider has a key |
| ModelSelector.AtMostOneHighlighted | src/components/chat/ModelSelector.tsx:72-78 | no two rows of the menu are highlighted |
| ModelSelector.SelectionShownIff | src/components/chat/ModelSelector.tsx:72-78 | some row is highlighted iff the current provider has a key and offers the current model |
| ModelSelector.ChoiceIsHighlighted | src/components/chat/ModelSelector.tsx:64-78 | after choosing a row, that row and only that row is highlighted |
| ModelSelector.Selector.constructor | src/components/chat/ModelSelector.tsx:12 | the menu starts closed |
| ModelSelector.Selector.Toggle | src/components/chat/ModelSelector.tsx:26 | the toggle button flips the menu |
| ModelSelector.Selector.Close | src/components/chat/ModelSelector.tsx:44 | a click outside closes the menu |
| ModelSelector.Selector.Choose | src/components/chat/ModelSelector.tsx:64-68 | the provider and model become the chosen pair and the menu closes; keys and conversations are unchanged |
| ChatInputBox.DisplayedValue | src/components/ui/ChatInputBox.tsx:31 | the controlled value when defined, otherwise the internal one |
| ChatInputBox.Submission | src/components/ui/ChatInputBox.tsx:40-42 | fires iff the value is not all whitespace and nothing is loading; submits exactly the trimmed value: a non-empty infix without whitespace at either end, with only whitespace around it in the value |
| ChatInputBox.SubmissionStable | src/components/ui/ChatInputBox.tsx:41-42 | a submitted text would submit as itself |
| ChatInputBox.EmptyBoxSubmitsNothing | src/components/ui/ChatInputBox.tsx:40-46 | an empty box submits nothing |
| ChatInputBox.ClampHeight | src/components/ui/ChatInputBox.tsx:60 | the height is the content height, capped at 160 |
| ChatInputBox.InputBox.constructor | src/components/ui/ChatInputBox.tsx:28 | the internal value starts empty |
| ChatInputBox.InputBox.SetValue | src/components/ui/ChatInputBox.tsx:32-38 | delegates to `onChange` when given; otherwise stores the value |
| ChatInputBox.InputBox.HandleSubmit | src/components/ui/ChatInputBox.tsx:40-47 | `onSubmit` receives the submission; the internal value is cleared after a submission iff the controlled value is falsy |
| ChatInputBox.InputBox.HandleKeyDown | src/components/ui/ChatInputBox.tsx:49-54 | Enter without Shift prevents the newline and submits; any other key does nothing |
| Middleware.Decide | src/middleware.ts:3-12 | redirect to `/login` iff the path starts with `/dashboard` and there is no `authToken` cookie |
| Middleware.EveryExtensionGated | src/middleware.ts:6 | every path that extends `/dashboard`, such as `/dashboardX`, is gated |
| Middleware.CaseSensitive | src/middleware.ts:6 | `/Dashboard…` is not gated |
| Middleware.UngatedPathsPass | src/middleware.ts:10 | any other path passes |
| Middleware.CookieValueIgnored | src/middleware.ts:6 | a present cookie passes whatever its value |

## Left out

- Rendering, animation and styling of every component are left out. So are the home, layout and design components and the pages.
- The AES cipher and the server `decrypt` are parameters. The client cipher uses a random salt, so the `encrypt` parameter of `HandleSave` stands for one encryption. There is no claim that the client's encryption and the server's decryption round-trip: the server's decryption module is not part of this model.
- The AI SDK is left out: `streamText`, `convertToModelMessages`, the stream response, the SDK constructors, and the `Chat`/transport session of the hook. Models and clients are descriptors, message conversion is a parameter, and the session's `sendMessage` is recorded as a list of sent texts.
- `streamText` and `toUIMessageStreamResponse` are modelled as never throwing: `Post` gives them no path to the 500 answer. Errors raised while the stream runs are not modelled either.
- The request body's `messages` is either absent or an array. Other JSON values there (`null`, `0`, `""`, an object) are not modelled; of these, the falsy ones would be refused with 400 like an absent field.
- ChatRoute.CreateProxyFetch: the dynamic `undici` import and the agent constructor are I/O, so they are one boolean parameter.
- Proxy transport behaviour is not modelled. Neither is the absolute redirect URL: `Middleware.Decide` returns the path `/login`, not the URL built from the request's origin.
- Ids (`crypto.randomUUID`) and times (`new Date()`) are parameters, and a `Date` is an integer. Zustand's persistence mechanism and localStorage are left out; only the `partialize` selection is modelled, as `Store.Partialize` and `Store.Rehydrated`.
- The store's `_hasHydrated` flag is read by the hook but not declared in the store. It is a boolean parameter of `HandleSendMessage`; the flag as the store actually provides it is the subject of the finding below.
- JSON values (`ToolCall.arguments` and `result`) are kept as text. The request body's fields are strings or absent; non-string JSON values are not modelled.
- UseChat.Title counts Unicode code points, while `slice` and `length` count UTF-16 code units. The two differ only for characters outside the Basic Multilingual Plane.
- Tools.Calculate: evaluation through `Function` with floating-point arithmetic is an abstract partial function defined on sanitised text.
- Tools.GetCurrentTime: the clock reading and locale formatting are parameters.
- The hook's `input`/`setInput` pair is its own `useState('')` state, which the send path neither reads nor writes, so it is not modelled. `messages`, `status` and `stop` come from the session unchanged. `isReady` returns the store's hydration flag, which is the `hasHydrated` parameter of `HandleSendMessage`.
- The key manager's modal `isOpen` flag is left out. Its remove button is the store's `RemoveApiKey`.
- Server and database glue (users route, user service), the Electron shell, and the thin wrappers `ChatInput` and `HeroInput` are not part of this model.

## Findings

| source | as written | input that shows it | evidently intended | confidence | as-written member | corrected member |
|---|---|---|---|---|---|---|
| src/hooks/useChat.ts:53 | the hook reads `_hasHydrated` from the store, but the store (src/stores/chatStore.ts:6-26) declares no such member and nothing sets it, so `!_hasHydrated` is always true | any send, with any stored key and provider | the flag becomes true once the persisted state is rehydrated, and the key guard then decides | not executed | UseChat.SendRefusedAsWritten | UseChat.SendGuard |
