/**
 * `GroqService`: the provider adapter for Groq's OpenAI-compatible API. It
 * keeps the generation parameters, builds the chat-completions request body
 * and reads the answer out of the reply.
 */
module Groq {
  import opened Wrappers
  import opened Strings
  import opened Json
  import opened Messages
  import opened Conversations
  import opened Http
  import opened Sse
  import opened HttpClients
  import opened Llm

  /** The models Groq is known to serve, in catalog order. */
  const AVAILABLE_MODELS: seq<ModelInfo> := [
    ModelInfo("llama-3.1-70b-versatile", "Llama 3.1 70B", 131072, true),
    ModelInfo("llama-3.1-8b-instant", "Llama 3.1 8B", 131072, true),
    ModelInfo("mixtral-8x7b-32768", "Mixtral 8x7B", 32768, true),
    ModelInfo("gemma2-9b-it", "Gemma 2 9B", 8192, true)
  ]

  const DEFAULT_MODEL: string := "llama-3.1-70b-versatile"
  const MAX_TOKENS_CAP: SizeT := 8192
  const MAX_TEMPERATURE: real := 2.0
  const INVALID_FORMAT: string := "Invalid response format"
  const JSON_ERROR_PREFIX: string := "JSON parsing error: "

  /** The catalog index of the first model with this id (`std::find_if`). */
  function FindModel(models: seq<ModelInfo>, id: string): (r: Option<nat>)
    ensures r.Some? ==> r.value < |models| && models[r.value].id == id
    ensures r.Some? ==> forall i :: 0 <= i < r.value ==> models[i].id != id
    ensures r.None? <==> forall i :: 0 <= i < |models| ==> models[i].id != id
  {
    if models == [] then None
    else if models[0].id == id then Some(0)
    else
      var rest := FindModel(models[1..], id);
      if rest.None? then None else Some(rest.value + 1)
  }

  /** The ids the catalog recognises are exactly these four, and the default model is the first. */
  lemma CatalogIds(id: string)
    ensures FindModel(AVAILABLE_MODELS, id).Some? <==>
              id in {"llama-3.1-70b-versatile", "llama-3.1-8b-instant", "mixtral-8x7b-32768", "gemma2-9b-it"}
    ensures FindModel(AVAILABLE_MODELS, DEFAULT_MODEL) == Some(0)
  {
    if id == AVAILABLE_MODELS[1].id {
      assert AVAILABLE_MODELS[1].id == id;
    } else if id == AVAILABLE_MODELS[2].id {
      assert AVAILABLE_MODELS[2].id == id;
    } else if id == AVAILABLE_MODELS[3].id {
      assert AVAILABLE_MODELS[3].id == id;
    }
  }

  /** `std::clamp(t, 0, 2)`. */
  function ClampTemperature(t: real): (r: real)
    ensures 0.0 <= r <= MAX_TEMPERATURE
    ensures 0.0 <= t <= MAX_TEMPERATURE ==> r == t
    ensures t < 0.0 ==> r == 0.0
    ensures t > MAX_TEMPERATURE ==> r == MAX_TEMPERATURE
  {
    if t < 0.0 then 0.0 else if t > MAX_TEMPERATURE then MAX_TEMPERATURE else t
  }

  /** `std::min(n, 8192)`: an upper bound only, so 0 is kept. */
  function CapMaxTokens(n: SizeT): (r: SizeT)
    ensures r <= MAX_TOKENS_CAP && r <= n
    ensures r == n || r == MAX_TOKENS_CAP
  {
    if n < MAX_TOKENS_CAP then n else MAX_TOKENS_CAP
  }

  /** Clamping and capping again change nothing. */
  lemma ClampIdempotent(t: real, n: SizeT)
    ensures ClampTemperature(ClampTemperature(t)) == ClampTemperature(t)
    ensures CapMaxTokens(CapMaxTokens(n)) == CapMaxTokens(n)
  {
  }

  /**
   * `prepare_request`: the chat-completions body, an object with exactly
   * the model, the conversation's messages, the temperature, the token limit
   * and the stream flag.
   */
  function PrepareRequest(model: string, messages: Json, temperature: real, maxTokens: SizeT, stream: bool): (j: Json)
    ensures j.JObj? && j.fields.Keys == {"model", "messages", "temperature", "max_tokens", "stream"}
    ensures GetString(j.fields["model"]) == Success(model)
    ensures j.fields["messages"] == messages
    ensures GetFloat(j.fields["temperature"]) == Some(temperature)
    ensures GetSizeT(j.fields["max_tokens"]) == Success(maxTokens)
    ensures GetBool(j.fields["stream"]) == Some(stream)
  {
    JObj(map["model" := JStr(model), "messages" := messages, "temperature" := JReal(temperature),
             "max_tokens" := JInt(maxTokens), "stream" := JBool(stream)])
  }

  /** The messages in a request built from a conversation's `to_json` decode back to that conversation. */
  lemma RequestCarriesConversation(model: string, ms: seq<Message>, temperature: real, maxTokens: SizeT, stream: bool)
    ensures var items := Elements(PrepareRequest(model, JArr(EncodeMessages(ms)), temperature, maxTokens, stream).fields["messages"]);
            DecodablePrefix(items) == |items| && DecodeAll(items) == ms
  {
    EncodeDecodeRoundTrip(ms);
  }

  /**
   * The answer text a well-formed reply carries: `choices` is a non-empty
   * array whose first element has a `message` object with a string
   * `content`.
   */
  function ChatContent(j: Json): Option<string> {
    if Contains(j, "choices") && j.fields["choices"].JArr? && |j.fields["choices"].items| > 0
       && Contains(j.fields["choices"].items[0], "message")
       && Contains(j.fields["choices"].items[0].fields["message"], "content")
       && j.fields["choices"].items[0].fields["message"].fields["content"].JStr?
    then Some(j.fields["choices"].items[0].fields["message"].fields["content"].s)
    else None
  }

  /** Whether the reply reports `usage.total_tokens`. */
  predicate HasUsage(j: Json) {
    Contains(j, "usage") && Contains(j.fields["usage"], "total_tokens")
  }

  /** Whether the reply's shape passes the test `parse_response` makes before reading the content. */
  predicate HasChoiceShape(j: Json) {
    Contains(j, "choices") && !IsEmpty(j.fields["choices"])
    && (j.fields["choices"].JArr? ==>
          Contains(j.fields["choices"].items[0], "message")
          && Contains(j.fields["choices"].items[0].fields["message"], "content"))
  }

  /**
   * `parse_response`. A transport failure keeps its error; a body that does
   * not parse, or whose values have the wrong JSON type, gives "JSON parsing
   * error: " and the library's message; a body without the expected fields
   * gives "Invalid response format". On success the content is
   * `choices[0].message.content`, the model is the service's current model
   * (the body's own `model` field is not read) and the token count is
   * `usage.total_tokens` or 0. `parse` stands for `nlohmann::json::parse`,
   * failing with the exception's message.
   */
  function ParseResponse(model: string, response: Response, parse: string -> Result<Json, string>): (r: CompletionResponse)
    ensures !response.success ==> r == Failed(response.error)
    ensures response.success && parse(response.body).Failure? ==>
              r == Failed(JSON_ERROR_PREFIX + parse(response.body).error)
    ensures r.success <==>
              && response.success && parse(response.body).Success?
              && ChatContent(parse(response.body).value).Some?
              && (HasUsage(parse(response.body).value) ==>
                    GetSizeT(parse(response.body).value.fields["usage"].fields["total_tokens"]).Success?)
    ensures r.success ==>
              var j := parse(response.body).value;
              && r.content == ChatContent(j).value && r.error == "" && r.model == model
              && r.tokensUsed == (if HasUsage(j) then GetSizeT(j.fields["usage"].fields["total_tokens"]).value else 0)
    ensures response.success ==>
              (r.error == INVALID_FORMAT <==> parse(response.body).Success? && !HasChoiceShape(parse(response.body).value))
    ensures response.success && parse(response.body).Success? && !HasChoiceShape(parse(response.body).value) ==>
              r == Failed(INVALID_FORMAT)
  {
    if !response.success then Failed(response.error)
    else
      match parse(response.body)
      case Failure(what) => JsonErrorIsNotFormatError(what); Failed(JSON_ERROR_PREFIX + what)
      case Success(j) =>
        if !Contains(j, "choices") || IsEmpty(j.fields["choices"]) then Failed(INVALID_FORMAT)
        else
          match ElementZero(j.fields["choices"])
          case Failure(what) => JsonErrorIsNotFormatError(what); Failed(JSON_ERROR_PREFIX + what)
          case Success(first) =>
            if !Contains(first, "message") || !Contains(first.fields["message"], "content") then Failed(INVALID_FORMAT)
            else
              match GetString(first.fields["message"].fields["content"])
              case Failure(what) => JsonErrorIsNotFormatError(what); Failed(JSON_ERROR_PREFIX + what)
              case Success(content) =>
                if !HasUsage(j) then CompletionResponse(content, true, "", 0, model)
                else
                  match GetSizeT(j.fields["usage"].fields["total_tokens"])
                  // The content and model are already stored when the conversion throws.
                  case Failure(what) =>
                    JsonErrorIsNotFormatError(what);
                    CompletionResponse(content, false, JSON_ERROR_PREFIX + what, 0, model)
                  case Success(n) => CompletionResponse(content, true, "", n, model)
  }

  lemma JsonErrorIsNotFormatError(what: string)
    ensures JSON_ERROR_PREFIX + what != INVALID_FORMAT
  {
    assert (JSON_ERROR_PREFIX + what)[0] != INVALID_FORMAT[0];
  }

  /** The answer names the service's current model, whatever model the reply body names. */
  lemma ReplyModelIgnored(model: string, other: string, content: string, body: string, parse: string -> Result<Json, string>)
    requires parse(body) == Success(JObj(map[
      "model" := JStr(other),
      "choices" := JArr([JObj(map["message" := JObj(map["content" := JStr(content)])])])]))
    ensures var r := ParseResponse(model, Response(200, body, map[], true, ""), parse);
            r.success && r.content == content && r.model == model && r.tokensUsed == 0
  {
    var j := parse(body).value;
    assert ChatContent(j) == Some(content);
    assert !HasUsage(j);
  }

  /** The conversation `complete(prompt)` sends: the system prompt when it is not empty, then the prompt as a user message. */
  function PromptMessages(systemPrompt: string, prompt: string): (ms: seq<Message>)
    ensures |ms| == (if systemPrompt == "" then 1 else 2)
    ensures ms[|ms| - 1] == Message(User, prompt)
    ensures HasSystemHead(ms) <==> systemPrompt != ""
    ensures systemPrompt != "" ==> ms[0] == Message(System, systemPrompt)
  {
    (if systemPrompt == "" then [] else [Message(System, systemPrompt)]) + [Message(User, prompt)]
  }

  class GroqService {
    const apiKey: string
    const client: HttpClient
    var currentModel: string
    var temperature: real
    var maxTokens: SizeT
    var systemPrompt: string

    /** Posts to `baseUrl` with the API key as bearer token, even an empty one, and starts on the default model. */
    constructor(build: Build, apiKey: string, baseUrl: string := GROQ_BASE_URL)
      ensures this.apiKey == apiKey && fresh(client)
      ensures client.build == build && client.baseUrl == baseUrl && client.bearerToken == Some(apiKey)
      ensures client.timeoutSec == DEFAULT_TIMEOUT_SEC
      ensures client.retryCount == DEFAULT_RETRY_COUNT && client.retryDelayMs == DEFAULT_RETRY_DELAY_MS
      ensures currentModel == DEFAULT_MODEL
      ensures temperature == DEFAULT_TEMPERATURE && maxTokens == DEFAULT_MAX_TOKENS && systemPrompt == DEFAULT_SYSTEM_PROMPT
    {
      this.apiKey := apiKey;
      var c := new HttpClient(build, baseUrl);
      c.SetBearerToken(apiKey);
      client := c;
      currentModel := DEFAULT_MODEL;
      temperature := DEFAULT_TEMPERATURE;
      maxTokens := DEFAULT_MAX_TOKENS;
      systemPrompt := DEFAULT_SYSTEM_PROMPT;
    }

    function GetAvailableModels(): (ms: seq<ModelInfo>)
      ensures ms == AVAILABLE_MODELS
    {
      AVAILABLE_MODELS
    }

    /** Switches to a catalog model; an id the catalog does not list leaves the current model as it was. */
    method SetModel(id: string)
      modifies this
      ensures currentModel == (if FindModel(AVAILABLE_MODELS, id).Some? then id else old(currentModel))
      ensures temperature == old(temperature) && maxTokens == old(maxTokens) && systemPrompt == old(systemPrompt)
    {
      if FindModel(AVAILABLE_MODELS, id).Some? {
        currentModel := id;
      }
    }

    method SetTemperature(t: real)
      modifies this
      ensures temperature == ClampTemperature(t)
      ensures currentModel == old(currentModel) && maxTokens == old(maxTokens) && systemPrompt == old(systemPrompt)
    {
      temperature := ClampTemperature(t);
    }

    method SetMaxTokens(n: SizeT)
      modifies this
      ensures maxTokens == CapMaxTokens(n)
      ensures currentModel == old(currentModel) && temperature == old(temperature) && systemPrompt == old(systemPrompt)
    {
      maxTokens := CapMaxTokens(n);
    }

    method SetSystemPrompt(prompt: string)
      modifies this
      ensures systemPrompt == prompt
      ensures currentModel == old(currentModel) && temperature == old(temperature) && maxTokens == old(maxTokens)
    {
      systemPrompt := prompt;
    }

    /** The body `prepare_request` builds from the current parameters. */
    function Request(ms: seq<Message>, stream: bool): Json
      reads this
    {
      PrepareRequest(currentModel, JArr(EncodeMessages(ms)), temperature, maxTokens, stream)
    }

    /**
     * `complete(conversation)`: posts the request, through the retry loop, to
     * "/chat/completions" and reads the answer out of the reply it ends with.
     */
    method Complete(conv: Conversation, replies: nat -> Exchange, parse: string -> Result<Json, string>)
      returns (request: Json, answer: CompletionResponse, calls: nat, sleeps: seq<SizeT>)
      requires forall n :: Yields(client.build, replies(n))
      ensures request == Request(conv.messages, false)
      ensures exists r :: RetryOutcome((n: nat) => AttemptPost(client.build, client.baseUrl, CHAT_COMPLETIONS, replies(n)),
                                      client.retryCount, client.retryDelayMs, r, calls, sleeps)
                          && answer == ParseResponse(currentModel, r, parse)
    {
      var messages := conv.ToJson();
      request := PrepareRequest(currentModel, messages, temperature, maxTokens, false);
      var r;
      r, calls, sleeps := client.Post(CHAT_COMPLETIONS, request, map[], replies);
      answer := ParseResponse(currentModel, r, parse);
    }

    /** `complete(prompt)`: a one-turn conversation, led by the system prompt when that is not empty. */
    method CompletePrompt(prompt: string, replies: nat -> Exchange, parse: string -> Result<Json, string>)
      returns (request: Json, answer: CompletionResponse, calls: nat, sleeps: seq<SizeT>)
      requires forall n :: Yields(client.build, replies(n))
      ensures request == Request(PromptMessages(systemPrompt, prompt), false)
      ensures exists r :: RetryOutcome((n: nat) => AttemptPost(client.build, client.baseUrl, CHAT_COMPLETIONS, replies(n)),
                                      client.retryCount, client.retryDelayMs, r, calls, sleeps)
                          && answer == ParseResponse(currentModel, r, parse)
    {
      var conv := new Conversation();
      if systemPrompt != "" {
        conv.AddSystem(systemPrompt);
      }
      conv.AddUser(prompt);
      assert conv.messages == PromptMessages(systemPrompt, prompt);
      request, answer, calls, sleeps := Complete(conv, replies, parse);
    }

    /** `stream_complete(conversation)`: posts the request with `stream` set and passes on the callbacks `post_stream` makes. */
    method StreamComplete(conv: Conversation, replies: nat -> Exchange)
      returns (request: Json, callbacks: seq<Callback>, calls: nat, sleeps: seq<SizeT>)
      requires forall n :: Yields(client.build, replies(n))
      ensures request == Request(conv.messages, true)
      ensures |callbacks| <= 1 && forall i :: 0 <= i < |callbacks| ==> callbacks[i].isDone
      ensures client.build.OnHttplib() ==>
                calls == 1 && sleeps == []
                && callbacks == (if replies(0).Replied? then [Callback(replies(0).body, true)] else [])
      ensures !client.build.OnHttplib() ==>
                exists r :: RetryOutcome((n: nat) => AttemptPost(client.build, client.baseUrl, CHAT_COMPLETIONS, replies(n)),
                                         client.retryCount, client.retryDelayMs, r, calls, sleeps)
                         && callbacks == (if r.success then [Callback(r.body, true)] else [])
    {
      var messages := conv.ToJson();
      request := PrepareRequest(currentModel, messages, temperature, maxTokens, true);
      callbacks, calls, sleeps := client.PostStream(CHAT_COMPLETIONS, request, map[], replies);
    }

    /** `stream_complete(prompt)`: the same one-turn conversation as `complete(prompt)`, streamed. */
    method StreamCompletePrompt(prompt: string, replies: nat -> Exchange)
      returns (request: Json, callbacks: seq<Callback>, calls: nat, sleeps: seq<SizeT>)
      requires forall n :: Yields(client.build, replies(n))
      ensures request == Request(PromptMessages(systemPrompt, prompt), true)
      ensures |callbacks| <= 1 && forall i :: 0 <= i < |callbacks| ==> callbacks[i].isDone
      ensures client.build.OnHttplib() ==>
                calls == 1 && sleeps == []
                && callbacks == (if replies(0).Replied? then [Callback(replies(0).body, true)] else [])
      ensures !client.build.OnHttplib() ==>
                exists r :: RetryOutcome((n: nat) => AttemptPost(client.build, client.baseUrl, CHAT_COMPLETIONS, replies(n)),
                                         client.retryCount, client.retryDelayMs, r, calls, sleeps)
                         && callbacks == (if r.success then [Callback(r.body, true)] else [])
    {
      var conv := new Conversation();
      if systemPrompt != "" {
        conv.AddSystem(systemPrompt);
      }
      conv.AddUser(prompt);
      assert conv.messages == PromptMessages(systemPrompt, prompt);
      request, callbacks, calls, sleeps := StreamComplete(conv, replies);
    }

    /** `is_available`: whether a GET of "/models" ends in success. */
    method IsAvailable(replies: nat -> Exchange) returns (available: bool, calls: nat, sleeps: seq<SizeT>)
      requires forall n :: Yields(client.build, replies(n))
      ensures client.build == WindowsOnly ==> !available && calls == 0 && sleeps == []
      ensures client.build != WindowsOnly ==>
                exists r :: RetryOutcome((n: nat) => AttemptGet(client.build, client.baseUrl, MODELS, replies(n)),
                                                client.retryCount, client.retryDelayMs, r, calls, sleeps)
                                   && available == r.success
    {
      var r;
      r, calls, sleeps := client.Get(MODELS, map[], replies);
      available := r.success;
    }
  }

  const MODELS: string := "/models"
}
