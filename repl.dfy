/**
 * The REPL (`src/repl/repl.cpp`): the command history, the slash commands
 * and what each turn does to the conversation. Terminal input and output
 * are outside the model; what a command reads from a file is a parameter.
 */
module Repls {
  import opened Wrappers
  import opened Strings
  import opened Json
  import opened Messages
  import opened Conversations
  import opened Http
  import opened Sse
  import opened HttpClients
  import opened Llm
  import opened Groq
  import opened Configs

  const DEFAULT_SAVE_FILE: string := "conversation.json"

  /** The longest prefix without whitespace. */
  function WordPrefix(s: string): string {
    if s != [] && !IsSpace(s[0]) then [s[0]] + WordPrefix(s[1..]) else []
  }

  /** What follows the longest prefix without whitespace. */
  function AfterWord(s: string): string {
    if s != [] && !IsSpace(s[0]) then AfterWord(s[1..]) else s
  }

  /** The word is a prefix without whitespace, followed by whitespace or the end. */
  lemma WordPrefixFacts(s: string)
    ensures var w, rest := WordPrefix(s), AfterWord(s);
            && s == w + rest
            && NoSpace(w)
            && (rest == [] || IsSpace(rest[0]))
  {
    WordSplit(s);
    WordHasNoSpace(s);
    WordEndsAtSpace(s);
  }

  lemma {:induction false} WordSplit(s: string)
    ensures s == WordPrefix(s) + AfterWord(s)
  {
    if s != [] && !IsSpace(s[0]) {
      var t := s[1..];
      WordSplit(t);
      assert s == [s[0]] + (WordPrefix(t) + AfterWord(t));
    }
  }

  lemma {:induction false} WordHasNoSpace(s: string)
    ensures NoSpace(WordPrefix(s))
  {
    if s != [] && !IsSpace(s[0]) {
      var w := WordPrefix(s[1..]);
      WordHasNoSpace(s[1..]);
      assert WordPrefix(s) == [s[0]] + w;
      forall i | 0 <= i < |w| + 1 ensures !IsSpace(([s[0]] + w)[i]) {
        if i > 0 {
          assert ([s[0]] + w)[i] == w[i - 1];
        }
      }
    }
  }

  lemma {:induction false} WordEndsAtSpace(s: string)
    ensures AfterWord(s) == [] || IsSpace(AfterWord(s)[0])
  {
    if s != [] && !IsSpace(s[0]) {
      WordEndsAtSpace(s[1..]);
    }
  }

  /** `iss >> word`: skips whitespace, then reads the next word ("" when there is none); also gives the text after it. */
  function ReadWord(s: string): (string, string) {
    var t := s[SkipSpace(s, 0)..];
    (WordPrefix(t), AfterWord(t))
  }

  /**
   * A read splits the text into skipped whitespace, the word and the rest;
   * the word holds no whitespace and the rest is empty or starts with some.
   */
  lemma ReadWordSplits(s: string)
    ensures var (w, rest) := ReadWord(s);
            && |w| + |rest| <= |s|
            && s == s[..|s| - |w| - |rest|] + w + rest
            && (forall i :: 0 <= i < |s| - |w| - |rest| ==> IsSpace(s[i]))
            && NoSpace(w)
            && (rest == [] || IsSpace(rest[0]))
            && (w == [] ==> rest == [])
  {
    var k := SkipSpace(s, 0);
    var t := s[k..];
    WordPrefixFacts(t);
    var w, rest := WordPrefix(t), AfterWord(t);
    assert ReadWord(s) == (w, rest);
    assert |s| - |w| - |rest| == k;
    assert s == s[..k] + (w + rest);
    if t != [] {
      assert !IsSpace(t[0]);
      assert w == [t[0]] + WordPrefix(t[1..]);
    }
  }

  /** A word followed by whitespace or by nothing is read as that word. */
  lemma ReadWordOf(w: string, rest: string)
    requires w != [] && NoSpace(w)
    requires rest == [] || IsSpace(rest[0])
    ensures ReadWord(w + rest) == (w, rest)
  {
    assert SkipSpace(w + rest, 0) == 0 by {
      assert !IsSpace((w + rest)[0]);
    }
    assert (w + rest)[0..] == w + rest;
    WordPrefixOf(w, rest);
  }

  lemma {:induction false} WordPrefixOf(w: string, rest: string)
    requires NoSpace(w)
    requires rest == [] || IsSpace(rest[0])
    ensures WordPrefix(w + rest) == w && AfterWord(w + rest) == rest
    decreases |w|
  {
    if w == [] {
      assert w + rest == rest;
    } else {
      assert (w + rest)[1..] == w[1..] + rest;
      WordPrefixOf(w[1..], rest);
      assert w == [w[0]] + w[1..];
    }
  }

  /** What `std::getline` reads from the rest of the line. */
  function RestOfLine(s: string): (line: string)
    ensures '\n' !in line
    ensures '\n' !in s ==> line == s
  {
    match FindChar(s, '\n')
    case None => s
    case Some(i) => s[..i]
  }

  /** The slash commands as `handle_slash_command` reads them. */
  datatype SlashCommand =
    | HelpCmd
    | ClearCmd
    | HistoryCmd
    | SaveCmd(file: string)
    | LoadUsage
    | LoadCmd(file: string)
    | ModelsCmd
    | ModelCmd(name: string)
    | SystemUsage
    | SystemCmd(prompt: string)
    | ExitCmd
    | UnknownCmd(word: string)

  /** The commands that dereference the LLM service. */
  predicate NeedsService(c: SlashCommand) {
    c.ModelsCmd? || c.ModelCmd?
  }

  /**
   * The first word selects the command. "/save" without a file name means
   * "conversation.json"; "/load" and "/model" take the next word; "/system"
   * takes the rest of the line less one leading space.
   */
  function ParseSlash(command: string): SlashCommand {
    var (cmd, rest) := ReadWord(command);
    Dispatch(cmd, rest)
  }

  /** The command named by the first word `cmd`, with `rest` the text after it. */
  function Dispatch(cmd: string, rest: string): SlashCommand {
    var arg := ReadWord(rest).0;
    if cmd == "/help" then HelpCmd
    else if cmd == "/clear" then ClearCmd
    else if cmd == "/history" then HistoryCmd
    else if cmd == "/save" then SaveCmd(if arg == "" then DEFAULT_SAVE_FILE else arg)
    else if cmd == "/load" then (if arg == "" then LoadUsage else LoadCmd(arg))
    else if cmd == "/model" then (if arg == "" then ModelsCmd else ModelCmd(arg))
    else if cmd == "/system" then
      var line := RestOfLine(rest);
      var prompt := if line != [] && line[0] == ' ' then line[1..] else line;
      if prompt == "" then SystemUsage else SystemCmd(prompt)
    else if cmd == "/exit" then ExitCmd
    else UnknownCmd(cmd)
  }

  predicate NoSpace(s: string) {
    forall i :: 0 <= i < |s| ==> !IsSpace(s[i])
  }

  /** "/save" alone saves to "conversation.json"; "/save f" saves to f. */
  lemma SaveArgument(file: string)
    requires NoSpace(file)
    ensures ParseSlash("/save") == SaveCmd(DEFAULT_SAVE_FILE)
    ensures ParseSlash("/save " + file) == SaveCmd(if file == "" then DEFAULT_SAVE_FILE else file)
  {
    ReadWordOf("/save", "");
    assert "/save" == "/save" + "";
    ArgumentWord("/save", file);
    assert "/save " + file == "/save" + " " + file;
    assert ParseSlash("/save " + file) == Dispatch("/save", " " + file);
  }

  /** "/load" alone is only a usage hint; "/load f" loads f. */
  lemma LoadArgument(file: string)
    requires NoSpace(file)
    ensures ParseSlash("/load") == LoadUsage
    ensures ParseSlash("/load " + file) == if file == "" then LoadUsage else LoadCmd(file)
  {
    ReadWordOf("/load", "");
    assert "/load" == "/load" + "";
    ArgumentWord("/load", file);
    assert "/load " + file == "/load" + " " + file;
    assert ParseSlash("/load " + file) == Dispatch("/load", " " + file);
  }

  /** "/model" alone lists the models; "/model m" switches to m. */
  lemma ModelArgument(name: string)
    requires NoSpace(name)
    ensures ParseSlash("/model") == ModelsCmd
    ensures ParseSlash("/model " + name) == if name == "" then ModelsCmd else ModelCmd(name)
  {
    ReadWordOf("/model", "");
    assert "/model" == "/model" + "";
    ArgumentWord("/model", name);
    assert "/model " + name == "/model" + " " + name;
    assert ParseSlash("/model " + name) == Dispatch("/model", " " + name);
  }

  /** How "cmd arg" is read: cmd, then arg as the next word. */
  lemma ArgumentWord(cmd: string, arg: string)
    requires cmd != [] && NoSpace(cmd) && NoSpace(arg)
    ensures ReadWord(cmd + " " + arg) == (cmd, " " + arg)
    ensures ReadWord(" " + arg).0 == arg
  {
    assert cmd + " " + arg == cmd + (" " + arg);
    ReadWordOf(cmd, " " + arg);
    var t := " " + arg;
    assert SkipSpace(t, 0) == 1 by {
      assert IsSpace(t[0]);
      assert |t| > 1 ==> !IsSpace(t[1]);
    }
    assert t[1..] == arg;
    WordPrefixOf(arg, "");
    assert arg + "" == arg;
  }

  /**
   * "/system p" sets p, keeping everything after the one space that
   * follows the command, inner and trailing spaces included; an empty p
   * only prints the usage hint.
   */
  lemma SystemArgument(prompt: string)
    requires '\n' !in prompt
    ensures ParseSlash("/system " + prompt) == if prompt == "" then SystemUsage else SystemCmd(prompt)
    ensures ParseSlash("/system") == SystemUsage
  {
    assert "/system " + prompt == "/system" + (" " + prompt);
    ReadWordOf("/system", " " + prompt);
    assert RestOfLine(" " + prompt) == " " + prompt;
    assert (" " + prompt)[1..] == prompt;
    ReadWordOf("/system", "");
    assert "/system" == "/system" + "";
  }

  /** Only "/exit" ends the REPL; any first word that is not a command is reported as unknown. */
  lemma ExitOnly(command: string)
    ensures ParseSlash(command) == ExitCmd <==> ReadWord(command).0 == "/exit"
    ensures ParseSlash(command).UnknownCmd? <==>
              ReadWord(command).0 !in ["/help", "/clear", "/history", "/save", "/load", "/model", "/system", "/exit"]
  {
  }

  /** `add_to_history`: a non-empty command is appended unless it repeats the last entry. */
  function AddedToHistory(h: seq<string>, command: string): (r: seq<string>)
    ensures r == h || (command != "" && r == h + [command])
    ensures command == "" || (h != [] && h[|h| - 1] == command) ==> r == h
  {
    if command != "" && (h == [] || h[|h| - 1] != command) then h + [command] else h
  }

  /** No empty entries and no entry equal to the one before it. */
  predicate HistoryClean(h: seq<string>) {
    && (forall i :: 0 <= i < |h| ==> h[i] != "")
    && (forall i :: 0 < i < |h| ==> h[i - 1] != h[i])
  }

  /**
   * Adding keeps the history clean, leaves a non-empty command as the last
   * entry, keeps every earlier entry, and adding the same command again
   * changes nothing.
   */
  lemma AddToHistoryProperties(h: seq<string>, command: string)
    ensures var r := AddedToHistory(h, command);
            && (HistoryClean(h) ==> HistoryClean(r))
            && (command != "" ==> r != [] && r[|r| - 1] == command)
            && (r == h || r == h + [command])
            && AddedToHistory(r, command) == r
  {
  }

  /** A clean history stays clean whatever commands are added to it. */
  lemma {:induction false} HistoryStaysClean(h: seq<string>, commands: seq<string>)
    requires HistoryClean(h)
    ensures HistoryClean(AddAll(h, commands))
    decreases |commands|
  {
    if commands != [] {
      AddToHistoryProperties(h, commands[0]);
      HistoryStaysClean(AddedToHistory(h, commands[0]), commands[1..]);
    }
  }

  function AddAll(h: seq<string>, commands: seq<string>): seq<string>
    decreases |commands|
  {
    if commands == [] then h else AddAll(AddedToHistory(h, commands[0]), commands[1..])
  }

  /** The entries `save_history` writes: the last `max` of them, or all when there are fewer. */
  function HistoryWindow(h: seq<string>, max: nat): (w: seq<string>)
    ensures |w| == if |h| < max then |h| else max
    ensures w == h[|h| - |w|..]
  {
    h[if |h| > max then |h| - max else 0..]
  }

  /** The history file's text: each entry followed by a newline. */
  function HistoryText(lines: seq<string>): string {
    if lines == [] then "" else lines[0] + "\n" + HistoryText(lines[1..])
  }

  /** `load_history` reads back what `save_history` wrote, as long as no entry holds a newline. */
  lemma {:induction false} HistoryTextReloads(lines: seq<string>)
    requires forall i :: 0 <= i < |lines| ==> '\n' !in lines[i]
    ensures Lines(HistoryText(lines)) == lines
  {
    if lines != [] {
      var l := lines[0];
      var rest := HistoryText(lines[1..]);
      var s := l + ("\n" + rest);
      assert HistoryText(lines) == s;
      FindCharFirst(l, "\n" + rest);
      assert s[..|l|] == l;
      assert s[|l| + 1..] == rest;
      HistoryTextReloads(lines[1..]);
      assert Lines(s) == [l] + Lines(rest);
    }
  }

  /** The first newline of `l + "\n" + t`, when `l` has none, is right after `l`. */
  lemma FindCharFirst(l: string, t: string)
    requires '\n' !in l && t != [] && t[0] == '\n'
    ensures FindChar(l + t, '\n') == Some(|l|)
  {
    var s := l + t;
    assert s[|l|] == '\n';
    assert forall i :: 0 <= i < |l| ==> s[i] == l[i];
    FindCharAt(s, '\n', |l|);
  }

  /**
   * Saving and reloading the history keeps exactly the last `max` entries,
   * in their order.
   */
  lemma SaveLoadHistory(h: seq<string>, max: nat)
    requires forall i :: 0 <= i < |h| ==> '\n' !in h[i]
    ensures Lines(HistoryText(HistoryWindow(h, max))) == HistoryWindow(h, max)
  {
    var w := HistoryWindow(h, max);
    forall i | 0 <= i < |w| ensures '\n' !in w[i] {
      assert w[i] == h[|h| - |w| + i];
    }
    HistoryTextReloads(w);
  }

  /** The text the stream callback collects: the chunks of the calls without `is_done`, in order. */
  function StreamedText(calls: seq<Callback>): string {
    if calls == [] then ""
    else (if calls[0].isDone then "" else calls[0].chunk) + StreamedText(calls[1..])
  }

  lemma {:induction false} StreamedTextAppend(a: seq<Callback>, b: seq<Callback>)
    ensures StreamedText(a + b) == StreamedText(a) + StreamedText(b)
    decreases |a|
  {
    if a == [] {
      assert a + b == b;
    } else {
      assert (a + b)[1..] == a[1..] + b;
      StreamedTextAppend(a[1..], b);
    }
  }

  /** Calls that all carry `is_done` collect nothing. */
  lemma {:induction false} StreamedTextOfDone(calls: seq<Callback>)
    requires forall i :: 0 <= i < |calls| ==> calls[i].isDone
    ensures StreamedText(calls) == ""
  {
    if calls != [] {
      StreamedTextOfDone(calls[1..]);
    }
  }

  /**
   * The reply `post_stream` hands over is one call with the whole body and
   * `is_done` set, so the text collected is empty whatever the body holds.
   */
  lemma StreamedReplyDropped(body: string)
    ensures StreamedText([Callback(body, true)]) == ""
  {
    StreamedTextOfDone([Callback(body, true)]);
  }

  /**
   * Had the body gone through `parse_sse_stream`, a delta chunk followed by
   * the done marker would be collected as its content.
   */
  lemma ParsedStreamReply(payload: string, content: string, parse: string -> Option<Json>)
    requires payload != DONE_MARKER
    requires parse(payload) == Some(JObj(map["choices" := JArr([JObj(map["delta" := JObj(map["content" := JStr(content)])])])]))
    ensures StreamedText(Events([DATA_PREFIX + payload, DATA_PREFIX + DONE_MARKER], parse)) == content
  {
    var first := [DATA_PREFIX + payload];
    var done := [DATA_PREFIX + DONE_MARKER];
    DeltaChunkLine(payload, content, parse);
    assert !HasFinish(first, parse) by {
      assert Events(first, parse) == [Callback(content, false)];
      DoneIsLastAndOnly(first, parse);
    }
    assert first + done == [DATA_PREFIX + payload, DATA_PREFIX + DONE_MARKER];
    EventsAppend(first, done, parse);
    var line := DATA_PREFIX + DONE_MARKER;
    assert line[..|DATA_PREFIX|] == DATA_PREFIX && line[|DATA_PREFIX|..] == DONE_MARKER;
    assert Events(done, parse) == [Callback("", true)];
    StreamedTextAppend([Callback(content, false)], [Callback("", true)]);
    assert StreamedText([Callback(content, false)]) == content + StreamedText([]);
  }

  const RESET: string := "\U{1B}[0m"

  /** The escape code `colorize_text` knows for a colour name. */
  function ColorCode(color: string): Option<string> {
    if color == "red" then Some("\U{1B}[31m")
    else if color == "green" then Some("\U{1B}[32m")
    else if color == "yellow" then Some("\U{1B}[33m")
    else if color == "blue" then Some("\U{1B}[34m")
    else if color == "magenta" then Some("\U{1B}[35m")
    else if color == "cyan" then Some("\U{1B}[36m")
    else if color == "white" then Some("\U{1B}[37m")
    else if color == "reset" then Some(RESET)
    else None
  }

  /** `colorize_text`: the text between its colour code and the reset code; plain on Windows or for an unknown colour. */
  function Colorize(text: string, color: string, windows: bool): (r: string)
    ensures windows || ColorCode(color).None? ==> r == text
    ensures !windows && ColorCode(color).Some? ==>
              r == ColorCode(color).value + text + RESET && r[|ColorCode(color).value|..|r| - |RESET|] == text
  {
    var code := ColorCode(color);
    if windows || code.None? then text
    else
      var r := code.value + text + RESET;
      assert r[|code.value|..|r| - |RESET|] == text;
      r
  }

  /** The fallback groq model "llama-3.3-70b-versatile" is not in the catalog, so `set_model` rejects it. */
  lemma FallbackModelRejected()
    ensures FindModel(AVAILABLE_MODELS, BuiltinProviderConfig(DEFAULT_PROVIDER).model).None?
  {
    var id := BuiltinProviderConfig(DEFAULT_PROVIDER).model;
    assert id == "llama-3.3-70b-versatile";
    CatalogIds(id);
  }

  /**
   * What slash command `c` does to the conversation `before`, leaving
   * `after`: "/clear" leaves only the configured system prompt `prompt`,
   * "/load f" replaces it by the messages the file holds when `files(f)` can
   * be read, "/system p" sets the system prompt, and every other command
   * leaves it as it was.
   */
  ghost predicate SlashConversation(c: SlashCommand, files: string -> Option<Json>, prompt: string,
                                    before: seq<Message>, after: seq<Message>)
  {
    if c == ClearCmd then after == [Message(System, prompt)]
    else if c.LoadCmd? && files(c.file).Some? then
      var items := Elements(files(c.file).value);
      after == DecodeAll(items[..DecodablePrefix(items)])
    else if c.SystemCmd? then after == WithSystemPrompt(before, c.prompt)
    else after == before
  }

  /** The model after slash command `c`: "/model m" switches to m when the catalogue has it; nothing else changes it. */
  function SlashModel(c: SlashCommand, current: string): string {
    if c.ModelCmd? && FindModel(AVAILABLE_MODELS, c.name).Some? then c.name else current
  }

  class Repl {
    const config: Config
    const conversation: Conversation
    var service: GroqService?
    var running: bool
    var processing: bool
    var commandHistory: seq<string>
    var historyIndex: SizeT

    /**
     * `REPL(config)`: the conversation starts with the configured system
     * prompt; for the "groq" provider a Groq service is made from the stored
     * provider settings and the key; then the history file is read
     * (`historyFile` is its text, None when it cannot be opened).
     */
    constructor(config: Config, build: Build, env: Env, historyFile: Option<string>)
      ensures this.config == config && fresh(conversation)
      ensures conversation.messages == [Message(System, config.replConfig.systemPrompt)]
      ensures (service != null) <==> config.provider == DEFAULT_PROVIDER
      ensures service != null ==>
                var pc := config.GetProviderConfig(config.provider);
                && fresh(service) && fresh(service.client)
                && service.apiKey == config.GetApiKey(env)
                && service.client.build == build && service.client.baseUrl == pc.apiUrl
                && service.currentModel == (if FindModel(AVAILABLE_MODELS, pc.model).Some? then pc.model else DEFAULT_MODEL)
                && service.temperature == ClampTemperature(pc.temperature)
                && service.maxTokens == CapMaxTokens(pc.maxTokens)
                && service.systemPrompt == DEFAULT_SYSTEM_PROMPT
      ensures commandHistory == if historyFile.Some? then Lines(historyFile.value) else []
      ensures !running && !processing && historyIndex == 0
    {
      this.config := config;
      var conv := new Conversation();
      conv.SetSystemPrompt(config.replConfig.systemPrompt);
      conversation := conv;
      running := false;
      processing := false;
      historyIndex := 0;
      commandHistory := [];
      if config.provider == DEFAULT_PROVIDER {
        var pc := config.GetProviderConfig(config.provider);
        var s := new GroqService(build, config.GetApiKey(env), pc.apiUrl);
        s.SetModel(pc.model);
        s.SetTemperature(pc.temperature);
        s.SetMaxTokens(pc.maxTokens);
        service := s;
      } else {
        service := null;
      }
      new;
      LoadHistory(historyFile);
    }

    /** `load_history`: every line of the file, appended in order. */
    method LoadHistory(historyFile: Option<string>)
      modifies this
      ensures commandHistory == old(commandHistory) + (if historyFile.Some? then Lines(historyFile.value) else [])
      ensures service == old(service) && running == old(running) && processing == old(processing)
      ensures historyIndex == old(historyIndex)
    {
      if historyFile.Some? {
        var lines := Lines(historyFile.value);
        for i := 0 to |lines|
          invariant commandHistory == old(commandHistory) + lines[..i]
          invariant service == old(service) && running == old(running) && processing == old(processing)
          invariant historyIndex == old(historyIndex)
        {
          commandHistory := commandHistory + [lines[i]];
        }
      }
    }

    /** `save_history`: the lines written to the history file. */
    method SaveHistory() returns (written: seq<string>)
      ensures written == HistoryWindow(commandHistory, config.replConfig.maxHistory)
    {
      var maxHistory := config.replConfig.maxHistory;
      var start := if |commandHistory| > maxHistory then |commandHistory| - maxHistory else 0;
      written := [];
      for i := start to |commandHistory|
        invariant written == commandHistory[start..i]
      {
        written := written + [commandHistory[i]];
      }
    }

    method AddToHistory(command: string)
      modifies this
      ensures commandHistory == AddedToHistory(old(commandHistory), command)
      ensures service == old(service) && running == old(running) && processing == old(processing)
      ensures historyIndex == old(historyIndex)
    {
      if command != "" && (commandHistory == [] || commandHistory[|commandHistory| - 1] != command) {
        commandHistory := commandHistory + [command];
      }
    }

    method Stop()
      modifies this
      ensures !running
      ensures service == old(service) && processing == old(processing) && commandHistory == old(commandHistory)
      ensures historyIndex == old(historyIndex)
    {
      running := false;
    }

    method SetLlmService(s: GroqService?)
      modifies this
      ensures service == s
      ensures running == old(running) && processing == old(processing) && commandHistory == old(commandHistory)
      ensures historyIndex == old(historyIndex)
    {
      service := s;
    }

    /**
     * What a user turn does to the conversation `before`, leaving `after`:
     * nothing while a request is in flight (`busy`); otherwise the user
     * message joins it and, when the turn is not streamed and the answer
     * the retried post of `replies` gives is a success, that answer follows.
     */
    ghost predicate TurnEffect(busy: bool, input: string, replies: nat -> Exchange, parse: string -> Result<Json, string>,
                               before: seq<Message>, after: seq<Message>)
      requires service != null
      reads this, config, service, service.client
    {
      var sent := before + [Message(User, input)];
      if busy then after == before
      else if config.replConfig.streaming then after == sent
      else
        var build, url := service.client.build, service.client.baseUrl;
        && (forall n :: Yields(build, replies(n)))
        && var reply := RetryReply((n: nat) => AttemptPost(build, url, CHAT_COMPLETIONS, replies(n)), service.client.retryCount);
           var answer := ParseResponse(service.currentModel, reply, parse);
           after == sent + (if answer.success then [Message(Assistant, answer.content)] else [])
    }

    /**
     * `process_user_input`: nothing while a request is in flight; otherwise
     * the input joins the conversation as a user message and the service is
     * asked about the whole conversation. A non-streamed answer joins it
     * when it is a success; a streamed one when the chunks collected are
     * not empty, which the Groq service's single `is_done` call never
     * gives.
     */
    method ProcessUserInput(input: string, replies: nat -> Exchange, parse: string -> Result<Json, string>)
      returns (request: Json, answer: Option<CompletionResponse>, callbacks: seq<Callback>, attempts: nat, sleeps: seq<SizeT>)
      requires service != null && forall n :: Yields(service.client.build, replies(n))
      modifies this, conversation
      ensures service == old(service) && commandHistory == old(commandHistory) && running == old(running)
      ensures historyIndex == old(historyIndex)
      ensures old(processing) ==> processing && conversation.messages == old(conversation.messages) && answer.None? && callbacks == []
      ensures !old(processing) ==>
                var sent := old(conversation.messages) + [Message(User, input)];
                && !processing
                && request == service.Request(sent, config.replConfig.streaming)
                && (config.replConfig.streaming ==>
                      && answer.None?
                      && conversation.messages == sent + (if StreamedText(callbacks) != "" then [Message(Assistant, StreamedText(callbacks))] else [])
                      && (forall i :: 0 <= i < |callbacks| ==> callbacks[i].isDone)
                      && conversation.messages == sent)
                && (!config.replConfig.streaming ==>
                      && answer.Some? && callbacks == []
                      && (var build, url := service.client.build, service.client.baseUrl;
                          exists r :: RetryOutcome((n: nat) => AttemptPost(build, url, CHAT_COMPLETIONS, replies(n)),
                                                   service.client.retryCount, service.client.retryDelayMs, r, attempts, sleeps)
                                      && answer.value == ParseResponse(service.currentModel, r, parse))
                      && conversation.messages == sent + (if answer.value.success then [Message(Assistant, answer.value.content)] else []))
    {
      request := JNull;
      answer := None;
      callbacks := [];
      attempts := 0;
      sleeps := [];
      if processing {
        return;
      }
      processing := true;
      ghost var sent := conversation.messages + [Message(User, input)];
      conversation.AddUser(input);
      assert conversation.messages == sent;
      if config.replConfig.streaming {
        request, callbacks, attempts, sleeps := StreamTurn(replies);
      } else {
        var response;
        request, response, attempts, sleeps := CompleteTurn(replies, parse);
        answer := Some(response);
      }
      processing := false;
    }

    /** `print_streaming_response`: collects the chunks the callback is given and adds them as the answer when there are any. */
    method StreamTurn(replies: nat -> Exchange) returns (request: Json, callbacks: seq<Callback>, attempts: nat, sleeps: seq<SizeT>)
      requires service != null && forall n :: Yields(service.client.build, replies(n))
      modifies conversation
      ensures request == service.Request(old(conversation.messages), true)
      ensures conversation.messages == old(conversation.messages) +
                (if StreamedText(callbacks) != "" then [Message(Assistant, StreamedText(callbacks))] else [])
      ensures forall i :: 0 <= i < |callbacks| ==> callbacks[i].isDone
      ensures conversation.messages == old(conversation.messages)
    {
      request, callbacks, attempts, sleeps := service.StreamComplete(conversation, replies);
      var full := CollectChunks(callbacks);
      if full != "" {
        conversation.AddAssistant(full);
      }
      StreamedTextOfDone(callbacks);
    }

    /** The stream callback of `print_streaming_response`: appends each chunk that comes without `is_done`. */
    static method CollectChunks(callbacks: seq<Callback>) returns (full: string)
      ensures full == StreamedText(callbacks)
    {
      full := "";
      for k := 0 to |callbacks|
        invariant full == StreamedText(callbacks[..k])
      {
        assert callbacks[..k + 1] == callbacks[..k] + [callbacks[k]];
        StreamedTextAppend(callbacks[..k], [callbacks[k]]);
        if !callbacks[k].isDone {
          full := full + callbacks[k].chunk;
        }
      }
      assert callbacks[..|callbacks|] == callbacks;
    }

    /** The non-streamed turn: the answer joins the conversation when it is a success. */
    method CompleteTurn(replies: nat -> Exchange, parse: string -> Result<Json, string>)
      returns (request: Json, answer: CompletionResponse, attempts: nat, sleeps: seq<SizeT>)
      requires service != null && forall n :: Yields(service.client.build, replies(n))
      modifies conversation
      ensures request == service.Request(old(conversation.messages), false)
      ensures var build, url := service.client.build, service.client.baseUrl;
              exists r :: RetryOutcome((n: nat) => AttemptPost(build, url, CHAT_COMPLETIONS, replies(n)),
                                       service.client.retryCount, service.client.retryDelayMs, r, attempts, sleeps)
                          && answer == ParseResponse(service.currentModel, r, parse)
      ensures conversation.messages == old(conversation.messages) + (if answer.success then [Message(Assistant, answer.content)] else [])
    {
      request, answer, attempts, sleeps := service.Complete(conversation, replies, parse);
      if answer.success {
        conversation.AddAssistant(answer.content);
      }
    }

    /**
     * `handle_slash_command`: false only for "/exit". "/clear" leaves just
     * the configured system prompt, "/load f" replaces the conversation by
     * what the file `files(f)` holds (nothing happens when it cannot be
     * read or parsed), "/system p" sets the system prompt and "/model m"
     * asks the service to switch; every other command leaves the
     * conversation and the service as they were.
     */
    method HandleSlashCommand(command: string, files: string -> Option<Json>) returns (more: bool)
      requires service != null || !NeedsService(ParseSlash(command))
      modifies conversation, service
      ensures more <==> ParseSlash(command) != ExitCmd
      ensures SlashConversation(ParseSlash(command), files, config.replConfig.systemPrompt,
                                old(conversation.messages), conversation.messages)
      ensures service != null ==> service.currentModel == SlashModel(ParseSlash(command), old(service.currentModel))
      ensures service != null ==>
                && service.temperature == old(service.temperature) && service.maxTokens == old(service.maxTokens)
                && service.systemPrompt == old(service.systemPrompt)
    {
      var c := ParseSlash(command);
      more := true;
      match c
      case ClearCmd =>
        conversation.Clear();
        conversation.SetSystemPrompt(config.replConfig.systemPrompt);
      case LoadCmd(file) =>
        var j := files(file);
        if j.Some? {
          var _ := conversation.FromJson(j.value);
        }
      case ModelCmd(name) =>
        service.SetModel(name);
      case SystemCmd(prompt) =>
        conversation.SetSystemPrompt(prompt);
      case ExitCmd =>
        more := false;
      case _ =>
    }

    /**
     * `process_command`: a line starting with '/' is a command and has the
     * slash handler's effect; anything else is a user turn, after which the
     * REPL goes on.
     */
    method ProcessCommand(input: string, replies: nat -> Exchange, parse: string -> Result<Json, string>, files: string -> Option<Json>)
      returns (more: bool)
      requires IsCommand(input) ==> service != null || !NeedsService(ParseSlash(input))
      requires !IsCommand(input) ==> service != null && forall n :: Yields(service.client.build, replies(n))
      modifies this, conversation, service
      ensures more <==> !(IsCommand(input) && ParseSlash(input) == ExitCmd)
      ensures service == old(service) && commandHistory == old(commandHistory)
      ensures IsCommand(input) ==>
                SlashConversation(ParseSlash(input), files, config.replConfig.systemPrompt,
                                  old(conversation.messages), conversation.messages)
      ensures IsCommand(input) && service != null ==>
                && service.currentModel == SlashModel(ParseSlash(input), old(service.currentModel))
                && service.temperature == old(service.temperature) && service.maxTokens == old(service.maxTokens)
                && service.systemPrompt == old(service.systemPrompt)
      ensures !IsCommand(input) ==>
                && unchanged(service)
                && TurnEffect(old(processing), input, replies, parse, old(conversation.messages), conversation.messages)
      ensures !IsCommand(input) ==>
                |old(conversation.messages)| <= |conversation.messages|
                && conversation.messages[..|old(conversation.messages)|] == old(conversation.messages)
    {
      if IsCommand(input) {
        more := HandleSlashCommand(input, files);
      } else {
        var _, _, _, _, _ := ProcessUserInput(input, replies, parse);
        more := true;
      }
    }

    /**
     * One pass of the loop in `run`: an empty line is skipped; any other
     * line enters the history and is processed; false stops the loop.
     */
    method HandleLine(input: string, replies: nat -> Exchange, parse: string -> Result<Json, string>, files: string -> Option<Json>)
      returns (more: bool)
      requires IsCommand(input) ==> service != null || !NeedsService(ParseSlash(input))
      requires input != "" && !IsCommand(input) ==> service != null && forall n :: Yields(service.client.build, replies(n))
      modifies this, conversation, service
      ensures input == "" ==> more && commandHistory == old(commandHistory) && conversation.messages == old(conversation.messages)
      ensures input != "" ==> commandHistory == AddedToHistory(old(commandHistory), input)
      ensures more <==> !(IsCommand(input) && ParseSlash(input) == ExitCmd)
      ensures service == old(service)
      ensures IsCommand(input) ==>
                SlashConversation(ParseSlash(input), files, config.replConfig.systemPrompt,
                                  old(conversation.messages), conversation.messages)
      ensures IsCommand(input) && service != null ==>
                && service.currentModel == SlashModel(ParseSlash(input), old(service.currentModel))
                && service.temperature == old(service.temperature) && service.maxTokens == old(service.maxTokens)
                && service.systemPrompt == old(service.systemPrompt)
      ensures input != "" && !IsCommand(input) ==>
                && unchanged(service)
                && TurnEffect(old(processing), input, replies, parse, old(conversation.messages), conversation.messages)
    {
      if input == "" {
        return true;
      }
      AddToHistory(input);
      more := ProcessCommand(input, replies, parse, files);
    }
  }

  /** `input.starts_with("/")`. */
  predicate IsCommand(input: string) {
    |input| > 0 && input[0] == '/'
  }
}
