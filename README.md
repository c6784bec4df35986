# CppLlmCLI core in Dafny

A Dafny model of the in-memory core of the C++ "LLM REPL" client. The client is a terminal chat program. It keeps a conversation, sends it to an OpenAI-style chat-completions endpoint (Groq), and adds the answer to the conversation. The model covers:

- the message and conversation records (`src/models/message.hpp`, `src/models/conversation.hpp`): wire names of roles, the JSON codec, appends, `set_system_prompt`, the length/4 token estimate and the sliding-window truncation. `Conversation` is a class over a `seq<Message>`;
- the HTTP client in its four builds (`Http.Build`), from three source files:
  - `src/http/http_client.cpp` on cpp-httplib;
  - `src/http/unified_http_client.cpp` on cpp-httplib, or on WinHTTP with `_WIN32`;
  - `src/http/windows_http_client.cpp`, the older WinHTTP-only file.

  It covers response classification, the retry loop with exponential backoff, header merging, the WinHTTP wrapper's URL splitting, `post_stream` and the server-sent events decoder `parse_sse_stream`. `HttpClient` is a class whose setters update its fields;
- the Groq adapter (`src/llm/groq_service.cpp`, `src/llm/llm_service.hpp`): the model catalog, parameter clamping, the request body, the mapping of a transport response to a `CompletionResponse`, and the one-turn prompt conversation;
- the configuration layers (`src/utils/config.cpp`, `src/utils/config.hpp`): built-in defaults, the JSON file overlay, the environment, command-line arguments and API-key precedence, with `to_json`/`from_json` read-back;
- the REPL's state (`src/repl/repl.cpp`): command history, slash-command parsing and dispatch, and what each turn does to the conversation;
- from `tests/utils/test_helpers.cpp`, the string utilities `TrimWhitespace` and `SplitString` and the data generators `GenerateTestMessages` and `CreateTestConversation`.

Supporting modules model the pieces of the C++ standard library and of nlohmann::json that the code relies on:

- `Strings`: `std::to_string`, `std::stoi`, `std::stof`, `find` and `size_t` wrap-around;
- `Json`: a JSON datatype, with the typed conversions, the `what()` text of the `type_error`s they throw, and the key order in which a range-for visits an object's member values.

A Dafny `string` here stands for the bytes of a `std::string`, one character per byte. Lengths, indices and `find` positions therefore count bytes, as `length()`, `substr` and `find` do in the C++. Text outside ASCII appears in the model as its UTF-8 bytes. For example, the seven Japanese characters "日本語テキスト" take 21 bytes, so the model holds them as a 21-character string and estimates 5 tokens, as `estimate_tokens` does.

Everything outside the program is an explicit parameter:

- each exchange with the server is a parameter `replies: nat -> Exchange`, indexed by attempt;
- the JSON parser is a parameter `parse` (an error result stands for the `parse_error` it throws);
- the environment is a map;
- the contents of files are parameters `files` / `historyFile`;
- the sleeps of the retry loop are returned as the list of requested delays.

The code, not its tests, decides the model where they disagree. Lemmas exhibit each disagreement:

- `Configs.GroqFallbackDiffersFromDefaults`: `get_provider_config` on a `Config()` with no stored providers falls back to the model "llama-3.3-70b-versatile" (`src/utils/config.cpp:80`). The unit test expects "llama-3.1-70b-versatile", which is what the file constructor's defaults hold.
- `Repls.FallbackModelRejected`: because of that fallback, a REPL built on such a `Config()` calls `set_model` with an id outside the catalog. The service then keeps its model "llama-3.1-70b-versatile".
- `Configs.CustomProviderLost`: `from_json` reads only the groq, together and ollama members. A provider named "test" is written out but not read back.
- `Groq.ReplyModelIgnored`: `parse_response` names the service's current model, not the `model` member of the reply. An integration test expects the reply's value.
- `Groq.GroqService.SetModel`: an id outside the four-entry catalog is rejected, as the code and its unit test do.

Streaming is on by default (`ReplConfig::streaming`). In every build `post_stream` never splits the body into events: it makes a single callback with the whole body and `is_done` set. The REPL's callback collects only chunks without `is_done`, so a streamed answer is neither recorded in the conversation nor shown. `Repls.StreamedReplyDropped` and the ensures of `Repls.Repl.StreamTurn` prove this. `Repls.ParsedStreamReply` shows that routing the body through the SSE decoder would collect the answer. The source marks this as a temporary shortcut ("for now", `src/http/http_client.cpp:135`), so it is modelled as written and not listed as a finding.

## Model

| member | source | states |
|---|---|---|
| Messages.RoleToString | src/models/message.hpp:28-39 | each role has its own wire name ("system", "user", "assistant"), and `string_to_role` reads that name back as the same role |
| Messages.StringToRole | src/models/message.hpp:41-47 | "system" and "assistant" give System and Assistant; every other name gives User |
| Messages.MessageToJson | src/models/message.hpp:16-21 | an object with exactly the keys "role" and "content", holding the role's wire name and the text, that decodes back to the same message |
| Messages.MessageFromJson | src/models/message.hpp:23-25 | decodes exactly when the value is an object with string "role" and "content" members; the role is read by name and the content kept |
| Messages.UnknownRoleDecodesAsUser | src/models/message.hpp:41-47 | a record whose role name is not recognised decodes as a User message with the same content |
| Conversations.WithSystemPrompt | src/models/conversation.hpp:31-37 | the messages after `set_system_prompt(p)`: a leading System message gets the text p, otherwise one is put in front; its properties are `SystemPromptIdempotent` and `SystemPromptKeepsInvariant` |
| Conversations.SystemPromptIdempotent | src/models/conversation.hpp:31-37 | setting the same system prompt twice equals setting it once, and of two prompts set in turn the last one wins |
| Conversations.SystemPromptKeepsInvariant | src/models/conversation.hpp:31-37 | when only index 0 may hold a System message before `set_system_prompt`, the same holds after it |
| Conversations.TokenEstimate | src/models/conversation.hpp:60-66 | the token estimate of a conversation, the sum of each content's length in bytes divided by 4 and rounded down; `TokenEstimateAppend` and `TokenEstimateBounds` state what it promises |
| Conversations.TokenEstimateAppend | src/models/conversation.hpp:60-66 | appending a message adds its length / 4 to the estimate, so the estimate never goes down |
| Conversations.TokenEstimateBounds | src/models/conversation.hpp:60-66 | four times the estimate is at most the total content length and falls short of it by less than four per message |
| Conversations.KeepStart | src/models/conversation.hpp:79-80 | the first index of the kept tail is never past the end of the conversation |
| Conversations.Truncated | src/models/conversation.hpp:68-87 | the sliding window `truncate_to_token_limit` keeps, the leading System message followed by the last `keep_recent` messages; `TruncatedShape` and the two lemmas after it state its shape |
| Conversations.TruncatedShape | src/models/conversation.hpp:68-87 | the window holds the head System message when there is one plus the last min(n, keepRecent) messages, in their original order, so at most keepRecent + 1 messages |
| Conversations.TruncatedDuplicatesShortSystem | src/models/conversation.hpp:75-84 | when no more than keepRecent messages start with a System message, that message is kept twice |
| Conversations.TruncatedLongWithSystem | src/models/conversation.hpp:75-84 | a System message followed by more than keepRecent messages leaves that message and the last keepRecent ones, exactly keepRecent + 1 |
| Conversations.EncodeMessages | src/models/conversation.hpp:41-47 | one JSON record per message |
| Conversations.EncodeMessagesAt | src/models/conversation.hpp:41-47 | record i is message i's `to_json` |
| Conversations.Elements | src/models/conversation.hpp:49-54 | what the range-for in `from_json` visits: an array's items in order, an object's member values, one per key, nothing for null and a scalar once |
| Conversations.ObjectElementsInKeyOrder | src/models/conversation.hpp:49-54 | iterating an object visits every member value, and the i-th one visited is the value of the i-th key in increasing key order |
| Conversations.BareMessageObjectLoadsNothing | src/models/conversation.hpp:49-54 | a file holding a single message object `{"role":"user","content":"hi"}` loads no message, because the first value visited is the string under "content" |
| Conversations.WrappedMessageLoads | src/models/conversation.hpp:49-54 | an object whose only member value is a message record loads exactly that message |
| Conversations.DecodablePrefix | src/models/conversation.hpp:49-54 | the count of leading records that decode: all of them decode and the next one, if any, does not |
| Conversations.DecodeAll | src/models/conversation.hpp:49-54 | one message per record |
| Conversations.EncodeDecodeRoundTrip | src/models/conversation.hpp:41-54 | every record that `to_json` writes decodes, and decoding them gives the same messages in the same order |
| Conversations.PrefixOfDecodable | src/models/conversation.hpp:49-54 | when every record decodes, the decodable prefix is the whole list |
| Conversations.Conversation.constructor | src/models/conversation.hpp:13 | a new conversation is empty |
| Conversations.Conversation.AddMessage | src/models/conversation.hpp:15 | the message is appended and nothing else changes; the size grows by one and the conversation is no longer empty |
| Conversations.Conversation.AddSystem | src/models/conversation.hpp:17-19 | a System message with the text is appended |
| Conversations.Conversation.AddUser | src/models/conversation.hpp:21-23 | a User message with the text is appended |
| Conversations.Conversation.AddAssistant | src/models/conversation.hpp:25-27 | an Assistant message with the text is appended |
| Conversations.Conversation.Size | src/models/conversation.hpp:57 | `size()`, the number of messages: zero exactly when there are none; `AddMessage` raises it by one and `Clear` makes it 0 |
| Conversations.Conversation.Empty | src/models/conversation.hpp:58 | `empty()` holds exactly when `size()` is zero |
| Conversations.Conversation.Clear | src/models/conversation.hpp:29 | no messages remain; the size is 0 and the conversation is empty |
| Conversations.Conversation.SetSystemPrompt | src/models/conversation.hpp:31-37 | message 0 becomes a System message with the prompt; a head System message is replaced in place (same length, same tail) and otherwise one is inserted in front of the old messages |
| Conversations.Conversation.ToJson | src/models/conversation.hpp:41-47 | the loop builds an array of every message's record, in order |
| Conversations.Conversation.FromJson | src/models/conversation.hpp:49-54 | the old messages are dropped and the elements the range-for visits (an array's items, or an object's member values in key order) that decode before the first one that fails are appended; the result says whether every element decoded |
| Conversations.Conversation.EstimateTokens | src/models/conversation.hpp:60-66 | the loop sums the byte length / 4 over the messages |
| Conversations.Conversation.TruncateToTokenLimit | src/models/conversation.hpp:68-87 | nothing changes while the estimate is within the limit; otherwise the messages become the sliding window |
| Conversations.Render | src/models/conversation.hpp:89-107 | the text `to_string` builds: per message its "[System]", "[User]" or "[Assistant]" label, a space, the content and a blank line; `Conversation.ToString` is proved to compute it |
| Conversations.Conversation.ToString | src/models/conversation.hpp:89-107 | one "[Role] content" block per message, each followed by a blank line |
| Conversations.SaveLoadRoundTrip | src/models/conversation.hpp:41-54 | loading what one conversation saved into another succeeds and gives the same messages, whatever the target held before |
| Configs.BuiltinProviderConfig | src/utils/config.cpp:78-90 | the fallback has the default temperature, token limit and no extra parameters; groq, together and ollama get a model and a URL, and any other name gets the plain default |
| Configs.LookupProvider | src/utils/config.cpp:72-91 | a stored entry is returned as it is; a name with no entry gets the built-in fallback |
| Configs.GroqFallbackDiffersFromDefaults | src/utils/config.cpp:78-81 | the fallback names Groq's model "llama-3.3-70b-versatile" while the defaults a file-built configuration starts with (lines 256-260) name "llama-3.1-70b-versatile" |
| Configs.Config.GetApiKey | src/utils/config.cpp:57-70 | the member function: a non-empty stored key wins; otherwise GROQ_API_KEY for provider "groq", TOGETHER_API_KEY for "together", and "" for any other provider |
| Configs.Config.GetProviderConfig | src/utils/config.cpp:72-91 | the member function: the stored entry for the name if there is one, otherwise the built-in fallback (`BuiltinProviderConfig`) |
| Configs.ApiKeyOf | src/utils/config.cpp:57-70 | a non-empty explicit key wins; otherwise GROQ_API_KEY for groq, TOGETHER_API_KEY for together, and "" for any other provider |
| Configs.ApplyEnvironment | src/utils/config.cpp:98-108 | the provider becomes LLM_PROVIDER when that is set; the stored providers and the REPL settings do not change |
| Configs.EnvironmentKeyPrecedence | src/utils/config.cpp:98-108 | the environment never replaces an explicit key; without one, the key is read from the variable of the provider that LLM_PROVIDER selected |
| Configs.EnvironmentIdempotent | src/utils/config.cpp:98-108 | reading the environment a second time changes nothing |
| Configs.MergeArgs | src/utils/config.cpp:110-140 | "provider" and "api-key" overwrite their fields and the REPL settings do not change |
| Configs.MergeEditsSelectedProvider | src/utils/config.cpp:117-139 | "model" and a "temperature" that `std::stof` reads without throwing edit only the entry of the provider now selected, starting from its stored or built-in entry; the other stored providers are untouched |
| Configs.MergeIgnoresBadTemperature | src/utils/config.cpp:129-139 | a temperature on which `std::stof` throws, with `invalid_argument` or `out_of_range`, has the same effect as no temperature |
| Configs.MergeIgnoresHugeTemperature | src/utils/config.cpp:129-139 | a whole-number temperature too large for a `float` (such as "1" followed by 39 zeros) makes `std::stof` throw `out_of_range`, so it has the same effect as no temperature |
| Configs.ProviderFromJson | src/utils/config.cpp:187-209 | the entry stored for one provider, default fields overwritten by the present ones, None when one has the wrong type; `ProviderFromJsonFields` and `ProviderRoundTrip` state it |
| Configs.ProviderFromJsonFields | src/utils/config.cpp:187-209 | an entry is stored exactly when every present field has the right type; it then holds the present fields over a fresh default configuration |
| Configs.ProviderFromEmptyObject | src/utils/config.cpp:189-208 | an object without fields yields the default configuration, whatever was stored before |
| Configs.ReplOverlay | src/utils/config.cpp:213-235 | the REPL settings after the "repl" member is read, stopping at the first field of the wrong type; `ReplOverlayFields` and `ReplRoundTrip` state it |
| Configs.ReplOverlayFields | src/utils/config.cpp:212-235 | a completed overlay sets each REPL field from its key when present and keeps it otherwise; an overlay cut short met a value of the wrong type |
| Configs.ApplyProviders | src/utils/config.cpp:187-210 | names outside the list keep their entries; on success every present listed provider holds what its entry decodes to and every absent one keeps its entry |
| Configs.ApplyJson | src/utils/config.cpp:178-236 | `from_json` as a whole: the head, the providers and the REPL settings in that order, with the success flag false at the first throw; `FromJsonTouchesOnlyKnownProviders` and `ReadBack` state what it promises |
| Configs.ApplyHead | src/utils/config.cpp:179-185 | reading "provider" and "api_key" leaves the stored providers and the REPL settings alone |
| Configs.ApplyProviderStage | src/utils/config.cpp:187-210 | the provider loop leaves the provider name, the key and the REPL settings alone |
| Configs.ApplyReplStage | src/utils/config.cpp:212-235 | the "repl" step leaves the provider name, the key and the stored providers alone |
| Configs.FromJsonTouchesOnlyKnownProviders | src/utils/config.cpp:178-236 | reading a file never adds, drops or changes a provider other than groq, together and ollama; on success each of those three that the file names holds what its entry decodes to |
| Configs.ProviderToJson | src/utils/config.cpp:150-161 | the object `to_json` writes per provider, leaving out "extra_params" when there are none; `ProviderRoundTrip` proves it reads back |
| Configs.ProviderRoundTrip | src/utils/config.cpp:150-161 | a provider entry that `to_json` writes is read back by `from_json` as the same configuration (lines 189-208) |
| Configs.ReplToJson | src/utils/config.cpp:164-173 | the "repl" object `to_json` writes, one member per REPL setting; `ReplRoundTrip` proves it reads back |
| Configs.ReplRoundTrip | src/utils/config.cpp:164-173 | the REPL object that `to_json` writes is read back as the same settings, whatever settings were there before (lines 212-235) |
| Configs.WriteProvider | src/utils/config.cpp:150-162 | writing one more provider member extends the members written so far by that provider |
| Configs.SettingsJson | src/utils/config.cpp:142-176 | the whole object `to_json` writes; `SettingsJsonMembers`, `SettingsJsonKeys` and `SettingsJsonValues` list its members and `SaveLoadSettings` proves it reads back |
| Configs.SettingsJsonMembers | src/utils/config.cpp:142-176 | with no provider named "provider", "api_key" or "repl", `to_json` writes exactly "provider", "repl", "api_key" when the key is not empty, and one member per stored provider, each holding its value |
| Configs.SettingsJsonKeys | src/utils/config.cpp:142-176 | the member names `to_json` writes |
| Configs.SettingsJsonValues | src/utils/config.cpp:142-176 | the value of each member `to_json` writes |
| Configs.SaveLoadSettings | src/utils/config.cpp:142-236 | reading back what `to_json` wrote succeeds; it restores the provider, the REPL settings, a non-empty key and the groq, together and ollama entries, and it keeps the target's other providers as they were |
| Configs.ReadBack | src/utils/config.cpp:178-236 | the same read-back for any object that holds exactly those members |
| Configs.HeadReadBack | src/utils/config.cpp:179-185 | the provider is read back, and the key too when it was written |
| Configs.ProvidersReadBack | src/utils/config.cpp:187-210 | the provider loop succeeds over the written entries and restores each known provider that was written |
| Configs.ProvidersAllRead | src/utils/config.cpp:187-210 | when every present entry has fields of the right types, the loop reaches its end |
| Configs.CustomProviderLost | src/utils/config.cpp:187 | a provider named "test" is saved but not read back into a fresh `Config`, so asking for it gives the empty built-in configuration |
| Configs.Config.constructor | src/utils/config.hpp:30 | `Config()` holds provider "groq", no key, no stored providers and the default REPL settings |
| Configs.Config.FromFile | src/utils/config.cpp:11-15 | `Config(file)` starts from the three default providers, reads the file when it could be parsed, then reads the environment |
| Configs.Config.SetProvider | src/utils/config.hpp:36 | only the provider changes |
| Configs.Config.SetApiKey | src/utils/config.hpp:39 | only the key changes |
| Configs.Config.SetReplConfig | src/utils/config.hpp:47 | only the REPL settings change |
| Configs.Config.SetProviderConfig | src/utils/config.cpp:93-96 | reading the entry back gives what was stored, and every other provider reads as before |
| Configs.Config.SetFromEnvironment | src/utils/config.cpp:98-108 | the new state is the environment applied to the old one |
| Configs.Config.MergeCommandLineArgs | src/utils/config.cpp:110-140 | the new state is the arguments merged into the old one |
| Configs.Config.ToJson | src/utils/config.cpp:142-176 | the loop over the stored providers builds the object described by `SettingsJson` |
| Configs.Config.FromJson | src/utils/config.cpp:178-236 | the new state and the success flag are those of `ApplyJson` |
| Configs.Config.ReadHead | src/utils/config.cpp:179-185 | the "provider" and "api_key" step as `ApplyHead` |
| Configs.Config.ReadProviders | src/utils/config.cpp:187-210 | the loop over groq, together and ollama as `ApplyProviderStage` |
| Configs.Config.ReadRepl | src/utils/config.cpp:212-235 | the "repl" step as `ApplyReplStage` |
| Configs.ProviderStep | src/utils/config.cpp:187-209 | one more pass of the provider loop: an absent name changes nothing, a badly typed entry stops the loop, and a good entry replaces the stored one |
| Configs.ProvidersStayFailed | src/utils/config.cpp:187-210 | once the loop has stopped, later names change nothing |
| Llm.Failed | src/llm/llm_service.hpp:14-20 | a failed answer built from a fresh record carries the error and nothing else: no content, no tokens, no model |
| Groq.FindModel | src/llm/groq_service.cpp:68-70 | the index of the first catalog entry with the id, or none exactly when no entry has it |
| Groq.CatalogIds | src/llm/groq_service.cpp:7-11 | the catalog recognises exactly its four ids, and the default model is its first entry |
| Groq.ClampTemperature | src/llm/groq_service.cpp:83-85 | the result lies in [0, 2]; a value inside is kept, one below becomes 0 and one above becomes 2 |
| Groq.CapMaxTokens | src/llm/groq_service.cpp:87-89 | the result is at most 8192 and at most the request; it is the request or 8192 |
| Groq.ClampIdempotent | src/llm/groq_service.cpp:83-89 | clamping or capping a second time changes nothing |
| Groq.PrepareRequest | src/llm/groq_service.cpp:105-115 | the body has exactly the members model, messages, temperature, max_tokens and stream, each holding its value |
| Groq.RequestCarriesConversation | src/llm/groq_service.cpp:105-115 | the messages member of a request decodes back to the conversation it was built from |
| Groq.ChatContent | src/llm/groq_service.cpp:130-134 | the answer a reply carries when it has a non-empty `choices` array whose first element holds `message.content` as a string; `ParseResponse` states how it decides the result |
| Groq.ParseResponse | src/llm/groq_service.cpp:117-152 | a transport failure keeps its error; a body that does not parse gives "JSON parsing error: " and the parser's message; a body without the expected shape gives "Invalid response format"; success means `choices[0].message.content` is a string and any `usage.total_tokens` is a size; the answer then holds that content, the service's current model and the token count or 0 |
| Groq.JsonErrorIsNotFormatError | src/llm/groq_service.cpp:143-148 | a JSON error message never equals the format error |
| Groq.ReplyModelIgnored | src/llm/groq_service.cpp:134-136 | the answer names the service's current model even when the reply names another |
| Groq.PromptMessages | src/llm/groq_service.cpp:34-41 | the one-turn conversation holds the system prompt first when that is not empty, then the prompt as a User message |
| Groq.GroqService.constructor | src/llm/groq_service.cpp:13-19 | the client posts to the base URL with the key as bearer token (even an empty key) and the default timeout and retry settings; the model is "llama-3.1-70b-versatile" and the other parameters are the service defaults |
| Groq.GroqService.GetAvailableModels | src/llm/groq_service.cpp:63-65 | the catalog, in order |
| Groq.GroqService.SetModel | src/llm/groq_service.cpp:67-79 | a catalog id becomes the current model; any other id leaves the model as it was; the other parameters do not change |
| Groq.GroqService.SetTemperature | src/llm/groq_service.cpp:83-85 | the temperature becomes the clamped value and nothing else changes |
| Groq.GroqService.SetMaxTokens | src/llm/groq_service.cpp:87-89 | the token limit becomes the capped value and nothing else changes |
| Groq.GroqService.SetSystemPrompt | src/llm/groq_service.cpp:91-93 | the system prompt becomes the text and nothing else changes |
| Groq.GroqService.Request | src/llm/groq_service.cpp:105-115 | `prepare_request` from the service's current model, temperature and max tokens; `Groq.PrepareRequest` and `Groq.RequestCarriesConversation` state its members and that its messages decode back to the conversation |
| Groq.GroqService.Complete | src/llm/groq_service.cpp:27-32 | the request is built from the conversation without streaming, and the answer is `parse_response` of the reply that the retry loop ends with |
| Groq.GroqService.CompletePrompt | src/llm/groq_service.cpp:34-41 | the same, for the one-turn conversation |
| Groq.GroqService.StreamComplete | src/llm/groq_service.cpp:43-51 | the request has stream set; at most one callback is made and it is the `is_done` one carrying the whole body; on the httplib build there is a single attempt, and on the others the retry loop's reply decides |
| Groq.GroqService.StreamCompletePrompt | src/llm/groq_service.cpp:53-61 | the same, for the one-turn conversation |
| Groq.GroqService.IsAvailable | src/llm/groq_service.cpp:95-103 | whether a GET of "/models" ends in success through the retry loop; the Windows-only build never reports available |
| Http.IsSuccessStatus | src/http/http_client.cpp:61 | a status is a success exactly when it lies in 200-299; `HttplibReply` and `RetryClassification` rely on it |
| Http.HttplibReply | src/http/http_client.cpp:58-72 | a reply keeps its status, body and headers; it is a success exactly for a 2xx status, and it carries an error exactly when it is not a success |
| Http.HttplibErrorNamesStatus | src/http/http_client.cpp:67-70 | the error of a failed reply starts with "HTTP ", and reading an integer back from what follows yields the status |
| Http.ConnectionFailure | src/http/http_client.cpp:51-56 | a transport failure has status 0, an empty body and headers, is not a success and carries the given error |
| Http.WinHttpReply | src/http/unified_http_client.cpp:258-297 | success exactly for a 2xx status; an error only when the reply fails with an empty body; the status is kept when it fits in an `int`; no server headers are collected |
| Http.WinHttpEarlyFailure | src/http/unified_http_client.cpp:221-255 | a request that cannot be opened or sent is not a success, has an empty body and the given error, and its status is whatever the uninitialised field held |
| Http.StopsRetry | src/http/http_client.cpp:179-183 | the retry loop returns a response at once when it is a success or a 4xx other than 429; `RetryClassification` states it for each kind of reply |
| Http.RetryClassification | src/http/http_client.cpp:179-183 | transport failures, 429, 3xx and 5xx replies are retried; a reply stops the loop exactly when it is 2xx or a 4xx other than 429 |
| Http.ShiftOne | src/http/http_client.cpp:186 | `1 << attempt` is 2 to the power attempt for every attempt below 31 |
| Http.BackoffDelay | src/http/http_client.cpp:186 | the delay after failed attempt n, `retry_delay_ms_ * (1 << n)` wrapped to `size_t`; `BackoffExponential` proves it doubles while nothing wraps |
| Http.Backoff | src/http/http_client.cpp:185-190 | there is one delay per slept attempt, delay n being `retry_delay_ms_ * (1 << n)` in `size_t` arithmetic |
| Http.BackoffExponential | src/http/http_client.cpp:186 | while the product fits in `size_t`, the delay after attempt n is base times 2^n, twice the delay before it |
| Http.DefaultBackoff | src/http/http_client.hpp:54-55 | with the default 1000 ms delay and three retries the sleeps are 1000 ms and then 2000 ms |
| Http.FirstStop | src/http/http_client.cpp:176-183 | the first attempt below the bound whose response stops the loop: every earlier one is retried, and none means every attempt below the bound is retried |
| HttpClients.RetryOutcome | src/http/http_client.cpp:174-194 | the response, number of requests and sleeps of one run of the retry loop; `RetryReturnsLastCall` states what it promises |
| HttpClients.RetryReply | src/http/http_client.cpp:174-194 | the response the retry loop returns: that of the first attempt that stops it, or that of the call after the loop |
| HttpClients.RetryWithoutRetries | src/http/http_client.cpp:176-193 | with a retry count of 0 exactly one request is made, with no sleep |
| HttpClients.RetryReturnsLastCall | src/http/http_client.cpp:174-194 | the response returned is the last one requested, at most retry count + 1 requests are made, it stops the loop or follows the loop, every earlier one was retried, and fewer sleeps than requests occur, each the backoff delay of its attempt |
| HttpClients.DefaultRetryAllFail | src/http/http_client.hpp:54-55 | with the defaults, a request that keeps failing retryably is made four times, with sleeps of 1000 ms and 2000 ms |
| HttpClients.AttemptPost | src/http/http_client.cpp:41-73 | with cpp-httplib a reply becomes the httplib response and a missing result a connection failure, named "Connection failed: " + the library error in one build and "Connection failed to " + URL in the other; WinHTTP builds go through the WinHTTP attempt |
| HttpClients.WinHttpAttempt | src/http/unified_http_client.cpp:351-376 | a base URL that cannot be parsed, or an exception in the wrapper, becomes "Connection failed: " + its message; a reply becomes the WinHTTP response |
| HttpClients.AttemptGet | src/http/windows_http_client.cpp:225-229 | the Windows-only build answers every GET with the failure "GET not implemented"; the others attempt it as a POST attempt would |
| HttpClients.RequestTarget | src/http/unified_http_client.cpp:207-208 | cpp-httplib builds request the endpoint; WinHTTP builds fail on an unparsable URL; the unified one prefixes the URL's base path, the Windows-only one does not |
| HttpClients.UnifiedTargetKeepsBasePath | src/http/unified_http_client.cpp:62-72 | in the unified WinHTTP build a request goes to the path of base URL + endpoint, whatever path the base URL has |
| HttpClients.WindowsOnlyDropsBasePath | src/http/windows_http_client.cpp:84-96 | in the Windows-only build the base URL's path is dropped, so the request names a different resource than base URL + endpoint |
| HttpClients.GroqChatTarget | src/llm/groq_service.hpp:12-14 | for the Groq base URL the chat request goes to "/openai/v1/chat/completions" in the unified build but "/chat/completions" in the Windows-only build |
| HttpClients.HttpClient.constructor | src/http/http_client.hpp:29 | a new client has no token, three retries 1000 ms apart and a 30-second timeout unless one is given |
| HttpClients.HttpClient.SetBearerToken | src/http/http_client.cpp:196-198 | the token is stored, even an empty one, and nothing else changes |
| HttpClients.HttpClient.SetTimeout | src/http/unified_http_client.cpp:593-600 | the timeout is replaced and nothing else changes |
| HttpClients.HttpClient.SetRetryCount | src/http/unified_http_client.cpp:602-604 | the retry count is replaced and nothing else changes |
| HttpClients.HttpClient.SetRetryDelay | src/http/unified_http_client.cpp:606-608 | the retry delay is replaced and nothing else changes |
| HttpClients.HttpClient.PrepareHeaders | src/http/http_client.cpp:25-36 | the caller's header names plus Content-Type and Accept, both JSON, plus Authorization "Bearer " + token when a token is set; every other caller header keeps its value |
| HttpClients.HttpClient.WinHttpHeaders | src/http/unified_http_client.cpp:228-236 | Content-Type for a POST, Accept for a GET, Authorization only for a non-empty token; nothing else, and no caller header |
| HttpClients.HttpClient.EmptyTokenHeader | src/http/unified_http_client.cpp:229 | with an empty token cpp-httplib builds send "Authorization: Bearer " while WinHTTP builds send no Authorization header |
| HttpClients.HttpClient.MakeRequestWithRetry | src/http/http_client.cpp:174-194 | the response, number of requests and sleeps are those of the retry outcome: the first stopping attempt, or one extra request after the loop |
| HttpClients.HttpClient.PostHeaders | src/http/http_client.cpp:25-36 | the headers a POST sends, per build: `prepare_headers` of the caller's headers on cpp-httplib, the fixed WinHTTP header block otherwise; `PrepareHeaders` and `WinHttpHeaders` state what each holds |
| HttpClients.HttpClient.Post | src/http/http_client.cpp:38-76 | the retry outcome over POST attempts built from the successive replies |
| HttpClients.HttpClient.Get | src/http/http_client.cpp:78-114 | the retry outcome over GET attempts; the Windows-only build returns "GET not implemented" without any request |
| HttpClients.HttpClient.StreamHeaders | src/http/http_client.cpp:127-128 | the POST headers with Accept replaced by "text/event-stream" |
| HttpClients.HttpClient.PostStream | src/http/http_client.cpp:124-141 | at most one callback, always marked done; cpp-httplib builds make one request without retries and pass any reply's whole body; WinHTTP builds go through the retry loop and call back only on success |
| HttpClients.FirstStopLater | src/http/http_client.cpp:176-183 | a stopping attempt found among the first k stays the first one when more attempts are allowed |
| WinUrl.ParseUrl | src/http/unified_http_client.cpp:35-72 | the WinHTTP client's split of its base URL; https is recorded exactly when the URL starts with "https://", and only an explicit port that `std::stoi` rejects makes it fail |
| WinUrl.ParseUrlFailure | src/http/unified_http_client.cpp:51-55 | splitting the base URL fails exactly when the text between the first ':' and the first '/' is an explicit port that `std::stoi` rejects, and the failure carries the text of that exception |
| WinUrl.ParseUrlShape | src/http/unified_http_client.cpp:35-72 | after a successful split the text after the scheme is host, then ":" and the port text when there is one, then the base path; the host holds no ':' or '/', the base path is empty or starts with '/', and the port is the explicit one or else the scheme's |
| WinUrl.ExplicitPortShape | src/http/unified_http_client.cpp:51-55 | with an explicit port the host ends at the first ':', the port is the number read from what follows up to the first '/', and the base path starts at that '/' |
| WinUrl.SchemePortShape | src/http/unified_http_client.cpp:56-60 | without an explicit port the host ends at the first '/' and the port is the one the scheme implies |
| WinUrl.ParseUrlWithoutPort | src/http/unified_http_client.cpp:38-45 | a URL made of a known scheme, a host and a path splits back into that host and path, with port 443 for https and 80 for http |
| WinUrl.ParseUrlWithPort | src/http/unified_http_client.cpp:48-55 | a URL with an explicit port splits back into its host, that port and its path, whatever the scheme |
| Sse.Lines | src/http/http_client.cpp:149 | the lines `std::getline` yields contain no '\n' |
| Sse.LinesJoin | src/http/http_client.cpp:145-149 | joining the lines with '\n' gives the body back, up to a final '\n' |
| Sse.DeltaContent | src/http/http_client.cpp:161-165 | an object yields a chunk exactly when it has `choices`, a first element, a `delta` in it and a string `content` in that; the chunk is that string |
| Sse.Classify | src/http/http_client.cpp:150-168 | what the decoder does with one line: lines without "data: " and payloads that do not parse or carry no delta content are skipped, "[DONE]" finishes and anything else is reported |
| Sse.Events | src/http/http_client.cpp:143-172 | the callbacks the decoder makes for a list of lines; `DoneIsLastAndOnly`, `EventsAppend` and `EmittedChunksComeFromDataLines` state what it promises |
| Sse.DoneIsLastAndOnly | src/http/http_client.cpp:153-156 | only the last callback can have `is_done` set, it carries no text, and it has it exactly when some line is "data: [DONE]" |
| Sse.EventsAppend | src/http/http_client.cpp:149-156 | the callbacks for two runs of lines are those of the first followed by those of the second, and nothing of the second when the first holds the done marker |
| Sse.EmittedChunksComeFromDataLines | src/http/http_client.cpp:150-166 | every chunk passed without `is_done` is the delta content of some line that starts with "data: " |
| Sse.DeltaChunkLine | src/http/http_client.cpp:158-166 | one data line holding a standard delta chunk produces exactly one callback with that content, not done |
| Sse.EventsCons | src/http/http_client.cpp:150-170 | one more line in front adds the done callback and stops, adds nothing, or adds its chunk, as its classification says |
| Sse.ParseSseStream | src/http/http_client.cpp:143-172 | the callbacks made while reading the body line by line are the events of its lines |
| Strings.ToSizeT | src/http/http_client.cpp:186 | a value that fits in `size_t` is kept, and any other value is taken modulo 2^64 |
| Strings.NatToString | src/http/http_client.cpp:69 | `std::to_string` of a non-negative number is a non-empty run of digits with no leading zero |
| Strings.IntToString | src/http/http_client.cpp:69 | `std::to_string` of an integer is non-empty and starts with '-' exactly when the integer is negative |
| Strings.DigitsValueOfNatToString | src/http/http_client.cpp:69 | the digits `std::to_string` prints denote the number printed |
| Strings.NatToStringInjective | tests/utils/test_helpers.cpp:137 | two numbers print the same only when they are equal |
| Strings.SkipSpace | src/http/unified_http_client.cpp:55 | the first position at or after the start that is not white space; everything skipped is white space |
| Strings.DigitRunEnd | src/http/unified_http_client.cpp:55 | the end of the longest run of digits from the start: all of it digits, and no digit right after it |
| Strings.Stoi | src/http/unified_http_client.cpp:55 | whatever `std::stoi` returns fits in a 32-bit `int` |
| Strings.StoiOfIntToString | src/http/unified_http_client.cpp:53-55 | `std::stoi` reads back any `int` that `std::to_string` printed, whatever non-digit text follows it |
| Strings.Stof | src/utils/config.cpp:131-133 | `std::stof` on decimal text: every value it returns is zero or within the normal range of `float` (below the overflow bound 2^128 - 2^103 and at least FLT_MIN in magnitude), otherwise it throws `out_of_range`; a string of digits reads as the number it denotes when that is below the overflow bound, and throws `out_of_range` otherwise |
| Strings.StofOfNatToString | src/utils/config.cpp:131-133 | `std::stof` reads a printed whole number back as that number when it is below the `float` overflow bound, and throws `out_of_range` for a larger one |
| Strings.Find | tests/utils/test_helpers.cpp:102-107 | `find(pat, from)` gives the first position at or after `from` where the pattern occurs, and none exactly when it occurs nowhere after `from` |
| Strings.FindChar | src/http/unified_http_client.cpp:48-49 | `find(c)` gives the first index holding `c`, and none exactly when no index holds it |
| Strings.FindCharAt | src/http/unified_http_client.cpp:48-49 | an index holding `c` with no `c` before it is the one `find` returns |
| Json.GetString | src/utils/config.cpp:179-181 | only a JSON string converts to a string, to its own text; anything else throws type_error 302 naming the actual type |
| Json.GetSizeT | src/utils/config.cpp:198-200 | only numbers convert to `size_t`; an integer that fits is kept; anything else throws type_error 302 |
| Json.GetFloat | src/utils/config.cpp:195-197 | numbers and booleans convert to `float`, a floating value to itself; anything else fails |
| Json.GetBool | src/utils/config.cpp:223-225 | only a JSON boolean converts to `bool` |
| Json.GetStringMap | src/utils/config.cpp:204-206 | an object whose every value is a string converts to the map with the same keys and those strings, and nothing else converts |
| Json.StringMapToJson | src/utils/config.cpp:157-159 | the object written for a string map converts back to that same map |
| Json.IsEmpty | src/llm/groq_service.cpp:131 | `empty()`: null, an empty array and an empty object are empty and nothing else is |
| Json.SortedKeys | src/models/conversation.hpp:50 | the keys of an object in the order its iterators visit them: every key once, in strictly increasing `std::string` order |
| Json.LeastKey | src/models/conversation.hpp:50 | the key an object's iteration visits first: a key that comes before every other one |
| Json.ObjectValues | src/models/conversation.hpp:50 | an object's member values in iteration order, one per key, the i-th being the value of the i-th sorted key |
| Json.KeyBeforeTotal | src/models/conversation.hpp:50 | of two different keys one comes before the other |
| Json.KeyBeforeAsymmetric | src/models/conversation.hpp:50 | no two keys come before each other |
| Json.KeyBeforeTransitive | src/models/conversation.hpp:50 | the key order is transitive |
| Json.LeastKeyExists | src/models/conversation.hpp:50 | every non-empty set of keys has a key that comes before all the others |
| Json.ElementZero | src/http/http_client.cpp:162 | `[0]` succeeds exactly on an array or null and throws on anything else |
| TestHelpers.FirstNotTrim | tests/utils/test_helpers.cpp:92 | the first index from the start that is not one of " \t\n\r", with only such characters before it; none exactly when all the rest are such characters |
| TestHelpers.LastNotTrim | tests/utils/test_helpers.cpp:95 | the last index below the bound that is not one of " \t\n\r", with only such characters after it; none exactly when all of them are such characters |
| TestHelpers.TrimWhitespace | tests/utils/test_helpers.cpp:91-97 | `TrimWhitespace`: the text from the first to the last character outside " \t\n\r"; `TrimShape` and `TrimIdempotent` state what it promises |
| TestHelpers.TrimShape | tests/utils/test_helpers.cpp:91-97 | the trimmed text is the input less a run of " \t\n\r" on each side, neither starts nor ends with one, and is empty exactly when the input has nothing else |
| TestHelpers.TrimIdempotent | tests/utils/test_helpers.cpp:91-97 | trimming twice gives what trimming once gives |
| TestHelpers.SplitFrom | tests/utils/test_helpers.cpp:99-112 | splitting always gives at least one token |
| TestHelpers.SplitString | tests/utils/test_helpers.cpp:99-112 | the loop produces the tokens between successive delimiters, then what follows the last one |
| TestHelpers.SplitFromStep | tests/utils/test_helpers.cpp:104-108 | one loop step moves the token before the next delimiter from the remaining split to the tokens already produced |
| TestHelpers.SplitJoin | tests/utils/test_helpers.cpp:99-112 | joining the tokens with the delimiter gives the text back |
| TestHelpers.SplitCount | tests/utils/test_helpers.cpp:99-112 | there is one token more than there are non-overlapping occurrences of the delimiter |
| TestHelpers.SkipNoOccurrence | tests/utils/test_helpers.cpp:107 | where no delimiter starts between two positions, the occurrences counted from either are the same |
| TestHelpers.SplitStringProperties | tests/utils/test_helpers.cpp:99-112 | splitting a whole text gives occurrences + 1 tokens that join back into the text |
| TestHelpers.GenerateTestMessages | tests/utils/test_helpers.cpp:132-142 | exactly `count` messages, message i being "Test message " + (i + 1) from the user at even i and the assistant at odd i |
| TestHelpers.TestMessagesProperties | tests/utils/test_helpers.cpp:135-138 | the generated messages start with the user, alternate between user and assistant, include no system message and all differ in content |
| TestHelpers.TestMessagesDiffer | tests/utils/test_helpers.cpp:137 | messages at different positions have different contents |
| TestHelpers.CreateTestConversation | tests/utils/test_helpers.cpp:36-43 | a fresh conversation holding the system prompt, then user, assistant, user |
| TestHelpers.TestConversationShape | tests/utils/test_helpers.cpp:36-43 | the test conversation has four messages, a system prompt at its head and nowhere else, and then user, assistant, user |
| Repls.WordPrefixFacts | src/repl/repl.cpp:202-204 | the word read is a prefix holding no whitespace, and what follows it is empty or starts with whitespace |
| Repls.WordSplit | src/repl/repl.cpp:204 | the text is the word followed by what comes after it |
| Repls.WordHasNoSpace | src/repl/repl.cpp:204 | the word holds no whitespace |
| Repls.WordEndsAtSpace | src/repl/repl.cpp:204 | what follows the word is empty or starts with whitespace |
| Repls.ReadWordSplits | src/repl/repl.cpp:202-204 | `iss >> word` splits the text into skipped whitespace, the word and the rest; the word has no whitespace, the rest is empty or starts with some, and no word means nothing is left |
| Repls.ReadWordOf | src/repl/repl.cpp:213-214 | a word followed by whitespace or by nothing is read back as that word |
| Repls.WordPrefixOf | src/repl/repl.cpp:213-214 | the longest whitespace-free prefix of a word followed by whitespace is that word |
| Repls.RestOfLine | src/repl/repl.cpp:241-242 | `std::getline` reads up to the first newline and holds none; without a newline it reads everything |
| Repls.ParseSlash | src/repl/repl.cpp:201-262 | the command a slash line stands for, chosen by its first word with the argument `iss >>` or `getline` would read; the argument lemmas below state each case |
| Repls.Dispatch | src/repl/repl.cpp:206-259 | the command named by a first word, given the text after it; `ExitOnly` states which words are known |
| Repls.SaveArgument | src/repl/repl.cpp:212-218 | "/save" alone saves to "conversation.json"; "/save f" saves to f |
| Repls.LoadArgument | src/repl/repl.cpp:219-227 | "/load" alone only prints the usage hint; "/load f" loads f |
| Repls.ModelArgument | src/repl/repl.cpp:228-239 | "/model" alone lists the models; "/model m" switches to m |
| Repls.ArgumentWord | src/repl/repl.cpp:202-214 | "cmd arg" is read as cmd, and the next word after it is arg |
| Repls.SystemArgument | src/repl/repl.cpp:240-251 | "/system p" sets p exactly, keeping inner and trailing spaces after dropping the one space after the command; an empty p only prints the usage hint |
| Repls.ExitOnly | src/repl/repl.cpp:252-259 | the command is "/exit" exactly when its first word is "/exit", and it is unknown exactly when its first word names none of the eight commands |
| Repls.AddedToHistory | src/repl/repl.cpp:361-366 | the history after `add_to_history`: either unchanged or the command appended, and unchanged for an empty command or a repeat of the last entry |
| Repls.AddToHistoryProperties | src/repl/repl.cpp:361-366 | adding keeps the history free of empty entries and of immediate repeats, leaves a non-empty command last, changes nothing but that append, and adding the same command again changes nothing |
| Repls.HistoryStaysClean | src/repl/repl.cpp:361-366 | a history without empty entries or immediate repeats stays so whatever commands are added |
| Repls.HistoryWindow | src/repl/repl.cpp:347-354 | the entries saved are the last `max_history` of the history, or all of them when there are fewer |
| Repls.HistoryText | src/repl/repl.cpp:352-354 | the text `save_history` writes: each entry followed by a newline; `HistoryTextReloads` and `SaveLoadHistory` state that it reads back |
| Repls.HistoryTextReloads | src/repl/repl.cpp:325-339 | reading back the lines the history file holds gives the entries written, as long as none holds a newline |
| Repls.FindCharFirst | src/repl/repl.cpp:332 | the first newline after an entry without one is the one that ends it |
| Repls.SaveLoadHistory | src/repl/repl.cpp:341-359 | saving and reloading the history keeps exactly its last `max_history` entries, in order |
| Repls.StreamedText | src/repl/repl.cpp:400-407 | the text the streaming callback collects: the chunks of the calls without `is_done`, in order; `StreamedTextAppend`, `StreamedTextOfDone` and `StreamedReplyDropped` state its properties |
| Repls.StreamedTextAppend | src/repl/repl.cpp:400-407 | the text collected from two runs of callbacks is the text of the first followed by that of the second |
| Repls.StreamedTextOfDone | src/repl/repl.cpp:401-406 | callbacks that all carry `is_done` collect no text |
| Repls.StreamedReplyDropped | src/repl/repl.cpp:393-412 | the single call `post_stream` makes, with the whole body and `is_done` set, collects no text, whatever the body holds |
| Repls.ParsedStreamReply | src/repl/repl.cpp:400-411 | a delta chunk line followed by the done marker, decoded as server-sent events, would collect exactly the chunk's content |
| Repls.Colorize | src/repl/repl.cpp:375-391 | a known colour wraps the text between its escape code and the reset code; an unknown colour, or Windows, gives the text unchanged |
| Repls.FallbackModelRejected | src/utils/config.cpp:80 | the fallback Groq model is not in the service's catalog, so `set_model` keeps the default model instead |
| Repls.Repl.constructor | src/repl/repl.cpp:27-53 | the conversation holds the configured system prompt only; a Groq service exists exactly for the "groq" provider, built from the stored settings, key and URL with the model kept only when the catalog lists it, the temperature clamped and the token cap applied; the history is the lines of the history file |
| Repls.Repl.LoadHistory | src/repl/repl.cpp:325-339 | every line of the history file is appended in order; nothing changes when the file cannot be opened |
| Repls.Repl.SaveHistory | src/repl/repl.cpp:341-359 | the lines written are the last `max_history` history entries |
| Repls.Repl.AddToHistory | src/repl/repl.cpp:361-366 | the history becomes the result of adding the command, and nothing else changes |
| Repls.Repl.Stop | src/repl/repl.cpp:104 | the REPL stops running and nothing else changes |
| Repls.Repl.SetLlmService | src/repl/repl.cpp:106-108 | the service is replaced and nothing else changes |
| Repls.Repl.TurnEffect | src/repl/repl.cpp:167-199 | what a user turn does to the conversation: nothing while busy, otherwise the user message and, for a non-streamed success, the answer the retried post returns |
| Repls.Repl.ProcessUserInput | src/repl/repl.cpp:167-199 | while a request is in flight nothing happens; otherwise the input joins as a user message and the whole conversation is sent; a non-streamed answer joins when it is a success, a streamed one never does |
| Repls.Repl.StreamTurn | src/repl/repl.cpp:393-412 | the request covers the whole conversation, the collected chunks would join as the answer, and since every callback carries `is_done` the conversation is unchanged |
| Repls.Repl.CollectChunks | src/repl/repl.cpp:400-407 | the text collected is the chunks of the callbacks without `is_done`, in order |
| Repls.Repl.CompleteTurn | src/repl/repl.cpp:184-189 | the answer is the parsed outcome of the retried POST, and it joins the conversation exactly when it is a success |
| Repls.SlashConversation | src/repl/repl.cpp:201-262 | what each slash command does to the conversation: "/clear", "/load f" and "/system p" replace it as the source does, and every other command leaves it |
| Repls.SlashModel | src/repl/repl.cpp:228-239 | the model after a slash command: "/model m" switches to m when the catalogue has it, and nothing else changes it |
| Repls.Repl.HandleSlashCommand | src/repl/repl.cpp:201-262 | false exactly for "/exit"; the conversation changes as `SlashConversation` says ("/clear" leaves only the configured system prompt, "/load f" replaces it by the messages decodable from what the range-for visits in the file, "/system p" sets the prompt) and the model as `SlashModel` says; the other service settings never change |
| Repls.Repl.ProcessCommand | src/repl/repl.cpp:158-165 | a line starting with '/' has exactly the slash handler's effect on the conversation and the model and ends the REPL only when it is "/exit"; any other line leaves the service untouched and has the user turn's effect (`TurnEffect`): the user message, then a successful non-streamed answer |
| Repls.Repl.HandleLine | src/repl/repl.cpp:84-94 | an empty line changes nothing; any other line is added to the history and then has the slash handler's effect when it starts with '/' and the user turn's effect otherwise; the loop stops only on "/exit" |

## Left out

- Network I/O. cpp-httplib's `Client::Post`/`Get`, the WinHTTP handles, wide-string conversion and the read loops are not modelled. What each exchange returns is the parameter `replies`.
- Timeouts and real sleeping. The timeout is stored but has no effect in the model. The retry loop returns the delays it requests, as `size_t` values, not the time actually slept: WinHTTP's `Sleep` takes a 32-bit `DWORD`, so a delay of 2^32 ms or more would sleep that delay modulo 2^32 (`src/http/unified_http_client.cpp:571`, `src/http/windows_http_client.cpp:264`), and `std::chrono::milliseconds` turns a delay of 2^63 ms or more negative.
- Concurrency. `post_async` and `complete_async` (`std::async`) are left out. The flags `running_` and `processing_` are plain booleans, and the signal handler that clears `processing_` from another context is not modelled.
- `Task` (the unused coroutine type) and `ServiceFactory`, which is declared without a definition. `ServiceFactory` is not part of this model.
- The nlohmann::json parser and `dump()`. Parsing is the parameter `parse`; serialisation is not modelled, so a request body is a `Json` value, not text.
- Floating point. Temperatures are `real`. Rounding to `float` and `std::stof`'s exponent, hexadecimal, infinity and NaN forms are not modelled.
- Strings.Stof: `out_of_range` is thrown for a value that overflows `float` and for any non-zero value below FLT_MIN in magnitude. How the C library treats the boundary of the subnormal range (an exactly representable subnormal, or a value just below FLT_MIN that rounds up to it) is not distinguished.
- Json.GetFloat: a JSON boolean converts to 0 or 1, following the library's arithmetic conversion. Rounding to single precision is not modelled.
- Strings.Stoi: its contract states only the range bound. Its exact reading is stated by `Strings.StoiOfIntToString` for the texts the program produces. Base prefixes are not consulted because the code calls it with base 10.
- File persistence. This covers `Conversation::save_to_file`/`load_from_file` (`src/models/conversation.cpp`), the config file's load and save (`src/utils/config.cpp:17-55`), the history file's open/write, and `/save`'s write. A file's contents are a parameter, and "cannot be opened" is `None`.
- `expand_path` (`std::filesystem::absolute` and HOME) is left out. File names are taken as given.
- Logging (spdlog, `LOG_*`, the "[DEBUG]" output) is left out.
- Terminal interaction is left out: `REPL::run`'s read loop beyond one pass (`Repls.Repl.HandleLine`), `read_input`, `print_welcome`, `print_help`, `print_response`, the text `/history` and `/model` print, and the signal handlers. What `colorize_text` returns is modelled; where it is printed is not.
- `src/main.cpp` and its CLI11 parsing are not part of this model. Their result enters as the argument map of `MergeCommandLineArgs`.
- Scripts (`build.py`, `llm-repl.py`, `repl_runner.py`, `validate.py`), the unit, integration and functional tests, and the mocks are not part of this model. The temporary-file and environment helpers of `tests/utils/test_helpers.cpp` are also left out.
- Repls.Repl.SetLlmService: the service slot holds a `GroqService`. The source takes any `LLMService` through a virtual interface, and only the Groq implementation exists in the repository.
- Repls.Repl.ProcessUserInput: exceptions escaping the service are not modelled. The C++ code catches them, prints them and clears `processing_`, which the model does on every path.
- Messages.MessageFromJson: `j["role"]` on a const object without that key is undefined behaviour in nlohmann::json. The model returns None then, as it does for a value that is not an object.
- The other test data helpers of `tests/utils/test_helpers.cpp` are left out: `CreateTestConfig`, `JsonEquals`, `GenerateTestApiResponse`, `GenerateTestErrorResponse`, `CreateMockGroqResponse`, `CreateMockStreamingChunk` and `CreateMockModelsResponse`. They only build fixtures for the tests, which are not part of this model.
- TestHelpers.SplitString: requires a non-empty delimiter. With an empty one, `find` keeps returning `start` and the C++ loop never terminates.
- Http.ShiftOne: `1 << attempt` for an attempt of 32 or more is undefined behaviour in C++. The model takes the x86 result: the count is masked to five bits. At 31 the result is INT_MIN, which C++20 defines.
- Http.WinHttpEarlyFailure: the status of a request that could not be opened or sent is an uninitialised `int` in the source. It is an arbitrary parameter here.
- HttpClients.HttpClient.Post: the headers and body actually sent are not part of its contract. The headers are stated separately by `PrepareHeaders`, `WinHttpHeaders` and `StreamHeaders`, and the JSON body by `Groq.PrepareRequest`.
- `parse_sse_stream` is never called by the program. It is modelled on its own (`Sse.ParseSseStream`), and `post_stream` is modelled as the code has it.

## Findings

| source | as written | input that shows it | evidently intended | confidence | as-written member | corrected member |
|---|---|---|---|---|---|---|
| src/http/windows_http_client.cpp:84-96 | the WinHTTP-only client sends the request to the endpoint path alone and discards the base URL's path | base URL "https://api.groq.com/openai/v1" with endpoint "/chat/completions" requests "/chat/completions" on api.groq.com instead of "/openai/v1/chat/completions" | the base path is kept in front of the endpoint, as `unified_http_client.cpp` does at lines 62-72 and 208 | not executed | HttpClients.WindowsOnlyDropsBasePath | HttpClients.UnifiedTargetKeepsBasePath |
