/**
 * The ordered list of messages sent to a provider, and the operations the
 * client performs on it in place.
 */
module Conversations {
  import opened Wrappers
  import opened Strings
  import opened Json
  import opened Messages

  /** Whether the first message is a System message. */
  predicate HasSystemHead(ms: seq<Message>) {
    |ms| > 0 && ms[0].role == System
  }

  /** The invariant `set_system_prompt` keeps: only index 0 may hold a System message. */
  predicate SystemOnlyAtHead(ms: seq<Message>) {
    forall i :: 0 < i < |ms| ==> ms[i].role != System
  }

  /** The messages after `set_system_prompt(p)`: the head System message's text replaced, or one inserted. */
  function WithSystemPrompt(ms: seq<Message>, p: string): seq<Message> {
    if HasSystemHead(ms) then [Message(System, p)] + ms[1..] else [Message(System, p)] + ms
  }

  /** Setting the same prompt twice is the same as setting it once; the last prompt set wins. */
  lemma SystemPromptIdempotent(ms: seq<Message>, p: string, q: string)
    ensures WithSystemPrompt(WithSystemPrompt(ms, p), p) == WithSystemPrompt(ms, p)
    ensures WithSystemPrompt(WithSystemPrompt(ms, p), q) == WithSystemPrompt(ms, q)
  {
  }

  /** `set_system_prompt` keeps the only-at-head invariant when it held before. */
  lemma SystemPromptKeepsInvariant(ms: seq<Message>, p: string)
    requires SystemOnlyAtHead(ms)
    ensures SystemOnlyAtHead(WithSystemPrompt(ms, p))
  {
  }

  /**
   * `estimate_tokens`: the sum over the messages of `length / 4`, rounded
   * down. `length()` counts bytes, as `|content|` does here, where a string
   * holds one character per byte.
   */
  function TokenEstimate(ms: seq<Message>): nat {
    if ms == [] then 0 else TokenEstimate(ms[..|ms| - 1]) + |ms[|ms| - 1].content| / 4
  }

  /** The total number of bytes of content. */
  function ContentLength(ms: seq<Message>): nat {
    if ms == [] then 0 else ContentLength(ms[..|ms| - 1]) + |ms[|ms| - 1].content|
  }

  /** Appending a message adds its length / 4 to the estimate, so the estimate never decreases. */
  lemma TokenEstimateAppend(ms: seq<Message>, m: Message)
    ensures TokenEstimate(ms + [m]) == TokenEstimate(ms) + |m.content| / 4
    ensures TokenEstimate(ms + [m]) >= TokenEstimate(ms)
  {
    assert (ms + [m])[..|ms|] == ms;
  }

  /** The estimate is a quarter of the content bytes, short by less than one token per message. */
  lemma {:induction false} TokenEstimateBounds(ms: seq<Message>)
    ensures 4 * TokenEstimate(ms) <= ContentLength(ms)
    ensures ContentLength(ms) < 4 * TokenEstimate(ms) + 4 * |ms| || ms == []
  {
    if ms != [] {
      TokenEstimateBounds(ms[..|ms| - 1]);
    }
  }

  /** The first index `truncate_to_token_limit` keeps from the tail. */
  function KeepStart(n: nat, keepRecent: nat): (start: nat)
    ensures start <= n
  {
    if n > keepRecent then n - keepRecent else 0
  }

  /** The sliding window: the head System message if there is one, then the last `keepRecent` messages. */
  function Truncated(ms: seq<Message>, keepRecent: nat): seq<Message> {
    (if HasSystemHead(ms) then [ms[0]] else []) + ms[KeepStart(|ms|, keepRecent)..]
  }

  /** The window holds at most keepRecent + 1 messages; the suffix it keeps is the original one, in order. */
  lemma TruncatedShape(ms: seq<Message>, keepRecent: nat)
    ensures var r := Truncated(ms, keepRecent);
            var tail := if |ms| <= keepRecent then |ms| else keepRecent;
            && |r| == (if HasSystemHead(ms) then 1 else 0) + tail
            && |r| <= keepRecent + 1
            && r[|r| - tail..] == ms[|ms| - tail..]
            && (HasSystemHead(ms) ==> r[0] == ms[0])
  {
  }

  /**
   * When the conversation is no longer than the window and starts with a
   * System message, that message is kept twice: once as the preserved
   * System message and once as part of the window.
   */
  lemma TruncatedDuplicatesShortSystem(ms: seq<Message>, keepRecent: nat)
    requires HasSystemHead(ms) && |ms| <= keepRecent
    ensures Truncated(ms, keepRecent) == [ms[0]] + ms
    ensures Truncated(ms, keepRecent)[0] == Truncated(ms, keepRecent)[1] == ms[0]
  {
  }

  /** A System message followed by more than `keepRecent` messages leaves exactly keepRecent + 1 of them. */
  lemma TruncatedLongWithSystem(ms: seq<Message>, keepRecent: nat)
    requires HasSystemHead(ms) && |ms| > keepRecent
    ensures Truncated(ms, keepRecent) == [ms[0]] + ms[|ms| - keepRecent..]
    ensures |Truncated(ms, keepRecent)| == keepRecent + 1
  {
  }

  /** The JSON records `to_json` emits, one per message in order. */
  function EncodeMessages(ms: seq<Message>): (items: seq<Json>)
    ensures |items| == |ms|
  {
    if ms == [] then [] else EncodeMessages(ms[..|ms| - 1]) + [MessageToJson(ms[|ms| - 1])]
  }

  lemma {:induction false} EncodeMessagesAt(ms: seq<Message>, i: nat)
    requires i < |ms|
    ensures EncodeMessages(ms)[i] == MessageToJson(ms[i])
  {
    if i < |ms| - 1 {
      EncodeMessagesAt(ms[..|ms| - 1], i);
    }
  }

  /**
   * The elements a range-for over `j` visits: an array's items, an object's
   * member values in key order, nothing for null, and a scalar itself.
   */
  function Elements(j: Json): (items: seq<Json>)
    ensures j.JArr? ==> items == j.items
    ensures j.JObj? ==> |items| == |j.fields|
    ensures !(j.JArr? || j.JObj?) ==> items == (if j.JNull? then [] else [j])
  {
    match j
    case JArr(items) => items
    case JObj(fields) => ObjectValues(fields)
    case JNull => []
    case _ => [j]
  }

  /** Iterating an object visits every member value, in increasing key order. */
  lemma ObjectElementsInKeyOrder(fields: map<string, Json>)
    ensures var items := Elements(JObj(fields));
            && (forall k :: k in fields ==> fields[k] in items)
            && (forall i :: 0 <= i < |items| ==> items[i] == fields[SortedKeys(fields.Keys)[i]])
  {
    var items := Elements(JObj(fields));
    var ks := SortedKeys(fields.Keys);
    forall k | k in fields
      ensures fields[k] in items
    {
      var i :| 0 <= i < |ks| && ks[i] == k;
      assert items[i] == fields[k];
    }
  }

  /**
   * A file holding one message object rather than an array: iterating the
   * object visits "content" first, a string, on which `Message::from_json`
   * throws, so nothing is loaded.
   */
  lemma BareMessageObjectLoadsNothing()
    ensures var items := Elements(JObj(map["role" := JStr("user"), "content" := JStr("hi")]));
            |items| == 2 && DecodablePrefix(items) == 0
  {
    var f := map["role" := JStr("user"), "content" := JStr("hi")];
    var ks := SortedKeys(f.Keys);
    assert f.Keys == {"role", "content"};
    assert KeyBefore("content", "role");
    assert !KeyBefore("role", "content");
    assert "content" in ks;
    assert ks[0] == "content";
    var items := Elements(JObj(f));
    ObjectElementsInKeyOrder(f);
    assert items[0] == JStr("hi");
    assert MessageFromJson(items[0]).None?;
  }

  /** An object whose one member value is a message loads that message. */
  lemma WrappedMessageLoads(key: string, m: Message)
    ensures var items := Elements(JObj(map[key := MessageToJson(m)]));
            items == [MessageToJson(m)] && DecodeAll(items[..DecodablePrefix(items)]) == [m]
  {
    var items := Elements(JObj(map[key := MessageToJson(m)]));
    ObjectElementsInKeyOrder(map[key := MessageToJson(m)]);
    assert items[0] == MessageToJson(m);
    assert items == [MessageToJson(m)];
    PrefixOfDecodable(items);
  }

  /** How many leading records decode as messages before the first that does not. */
  function DecodablePrefix(items: seq<Json>): (k: nat)
    ensures k <= |items|
    ensures forall i :: 0 <= i < k ==> MessageFromJson(items[i]).Some?
    ensures k < |items| ==> MessageFromJson(items[k]).None?
  {
    if items == [] || MessageFromJson(items[0]).None? then 0 else 1 + DecodablePrefix(items[1..])
  }

  /** The messages a list of records decodes to, when every record decodes. */
  function DecodeAll(items: seq<Json>): (ms: seq<Message>)
    requires forall i :: 0 <= i < |items| ==> MessageFromJson(items[i]).Some?
    ensures |ms| == |items|
  {
    seq(|items|, i requires 0 <= i < |items| => MessageFromJson(items[i]).value)
  }

  lemma DecodeAllSnoc(items: seq<Json>, i: nat)
    requires i < |items| && forall k :: 0 <= k <= i ==> MessageFromJson(items[k]).Some?
    ensures DecodeAll(items[..i + 1]) == DecodeAll(items[..i]) + [MessageFromJson(items[i]).value]
  {
  }

  /** Decoding what `to_json` emitted gives back the same ordered role/content list. */
  lemma {:induction false} EncodeDecodeRoundTrip(ms: seq<Message>)
    ensures DecodablePrefix(EncodeMessages(ms)) == |ms|
    ensures DecodeAll(EncodeMessages(ms)) == ms
  {
    var items := EncodeMessages(ms);
    forall i | 0 <= i < |ms| ensures MessageFromJson(items[i]) == Some(ms[i]) {
      EncodeMessagesAt(ms, i);
    }
    PrefixOfDecodable(items);
  }

  lemma {:induction false} PrefixOfDecodable(items: seq<Json>)
    requires forall i :: 0 <= i < |items| ==> MessageFromJson(items[i]).Some?
    ensures DecodablePrefix(items) == |items|
  {
    if items != [] {
      PrefixOfDecodable(items[1..]);
    }
  }

  /** The label `to_string` prints for a role. */
  function RoleLabel(r: Role): string {
    match r
    case System => "[System]"
    case User => "[User]"
    case Assistant => "[Assistant]"
  }

  /** `to_string`: one "label content" block per message, each followed by a blank line. */
  function Render(ms: seq<Message>): string {
    if ms == [] then "" else Render(ms[..|ms| - 1]) + RoleLabel(ms[|ms| - 1].role) + " " + ms[|ms| - 1].content + "\n\n"
  }

  class Conversation {
    var messages: seq<Message>

    constructor()
      ensures messages == []
    {
      messages := [];
    }

    /** `size()`: the number of messages; zero exactly when there are none. */
    function Size(): (n: nat)
      reads this
      ensures n == 0 <==> messages == []
    {
      |messages|
    }

    /** `empty()`: whether the size is zero. */
    predicate Empty()
      reads this
      ensures Empty() <==> Size() == 0
    {
      messages == []
    }

    method AddMessage(m: Message)
      modifies this
      ensures messages == old(messages) + [m]
      ensures Size() == old(Size()) + 1 && !Empty()
    {
      messages := messages + [m];
    }

    method AddSystem(content: string)
      modifies this
      ensures messages == old(messages) + [Message(System, content)]
    {
      messages := messages + [Message(System, content)];
    }

    method AddUser(content: string)
      modifies this
      ensures messages == old(messages) + [Message(User, content)]
    {
      messages := messages + [Message(User, content)];
    }

    method AddAssistant(content: string)
      modifies this
      ensures messages == old(messages) + [Message(Assistant, content)]
    {
      messages := messages + [Message(Assistant, content)];
    }

    method Clear()
      modifies this
      ensures messages == [] && Size() == 0 && Empty()
    {
      messages := [];
    }

    /** Replaces the head System message's text, or inserts a System message at index 0. */
    method SetSystemPrompt(prompt: string)
      modifies this
      ensures messages == WithSystemPrompt(old(messages), prompt)
      ensures messages[0] == Message(System, prompt)
      ensures HasSystemHead(old(messages)) ==> |messages| == |old(messages)| && messages[1..] == old(messages)[1..]
      ensures !HasSystemHead(old(messages)) ==> |messages| == |old(messages)| + 1 && messages[1..] == old(messages)
    {
      if messages != [] && messages[0].role == System {
        messages := messages[0 := Message(System, prompt)];
      } else {
        messages := [Message(System, prompt)] + messages;
      }
    }

    /** `to_json`: an array with one `{role, content}` record per message, in order. */
    method ToJson() returns (j: Json)
      ensures j == JArr(EncodeMessages(messages))
    {
      var items: seq<Json> := [];
      var i := 0;
      while i < |messages|
        invariant 0 <= i <= |messages|
        invariant items == EncodeMessages(messages[..i])
      {
        assert messages[..i + 1][..i] == messages[..i];
        items := items + [MessageToJson(messages[i])];
        i := i + 1;
      }
      assert messages[..i] == messages;
      j := JArr(items);
    }

    /**
     * `from_json`: drops every earlier message, then appends the decoding of
     * each record in turn. At the first record that does not decode the C++
     * code throws, leaving the records decoded so far; `ok` is false then.
     */
    method FromJson(j: Json) returns (ok: bool)
      modifies this
      ensures var items := Elements(j);
              && ok == (DecodablePrefix(items) == |items|)
              && messages == DecodeAll(items[..DecodablePrefix(items)])
    {
      var items := Elements(j);
      messages := [];
      var i := 0;
      while i < |items|
        invariant 0 <= i <= DecodablePrefix(items)
        invariant messages == DecodeAll(items[..i])
      {
        var m := MessageFromJson(items[i]);
        if m.None? {
          assert i == DecodablePrefix(items);
          return false;
        }
        DecodeAllSnoc(items, i);
        messages := messages + [m.value];
        i := i + 1;
      }
      assert items[..i] == items;
      return true;
    }

    /** `estimate_tokens`. */
    method EstimateTokens() returns (tokens: nat)
      ensures tokens == TokenEstimate(messages)
    {
      tokens := 0;
      var i := 0;
      while i < |messages|
        invariant 0 <= i <= |messages|
        invariant tokens == TokenEstimate(messages[..i])
      {
        assert messages[..i + 1][..i] == messages[..i];
        tokens := tokens + |messages[i].content| / 4;
        i := i + 1;
      }
      assert messages[..i] == messages;
    }

    /**
     * `truncate_to_token_limit`: nothing changes while the estimate is within
     * `maxTokens`; otherwise only the sliding window is kept.
     */
    method TruncateToTokenLimit(maxTokens: SizeT, keepRecent: SizeT := 10)
      modifies this
      ensures TokenEstimate(old(messages)) <= maxTokens ==> messages == old(messages)
      ensures TokenEstimate(old(messages)) > maxTokens ==> messages == Truncated(old(messages), keepRecent)
    {
      var tokens := EstimateTokens();
      if tokens <= maxTokens {
        return;
      }
      var ms := messages;
      var kept: seq<Message> := [];
      if ms != [] && ms[0].role == System {
        kept := kept + [ms[0]];
      }
      var head := kept;
      assert head == (if HasSystemHead(ms) then [ms[0]] else []);
      var start := if |ms| > keepRecent then |ms| - keepRecent else 0;
      assert start == KeepStart(|ms|, keepRecent);
      var i := start;
      while i < |ms|
        invariant start <= i <= |ms|
        invariant kept == head + ms[start..i]
      {
        assert ms[start..i + 1] == ms[start..i] + [ms[i]];
        kept := kept + [ms[i]];
        i := i + 1;
      }
      assert ms[start..i] == ms[KeepStart(|ms|, keepRecent)..];
      messages := kept;
    }

    /** `to_string`. */
    method ToString() returns (s: string)
      ensures s == Render(messages)
    {
      s := "";
      var i := 0;
      while i < |messages|
        invariant 0 <= i <= |messages|
        invariant s == Render(messages[..i])
      {
        assert messages[..i + 1][..i] == messages[..i];
        s := s + RoleLabel(messages[i].role) + " " + messages[i].content + "\n\n";
        i := i + 1;
      }
      assert messages[..i] == messages;
    }
  }

  /** Loading what was saved reproduces the conversation, whatever it held before. */
  method SaveLoadRoundTrip(source: Conversation, target: Conversation) returns (ok: bool)
    modifies target
    ensures ok && target.messages == source.messages
  {
    var j := source.ToJson();
    EncodeDecodeRoundTrip(source.messages);
    assert j.items[..|source.messages|] == j.items;
    ok := target.FromJson(j);
  }
}
