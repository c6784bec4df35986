/**
 * The string utilities and test-data generators of `tests/utils/test_helpers.cpp`
 * (`TestHelpers`).
 */
module TestHelpers {
  import opened Wrappers
  import opened Strings
  import opened Messages
  import opened Conversations

  /** The characters `TrimWhitespace` removes: " \t\n\r". */
  predicate IsTrimChar(c: char) {
    c == ' ' || c == '\t' || c == '\n' || c == '\r'
  }

  predicate AllTrimChars(s: string) {
    forall i :: 0 <= i < |s| ==> IsTrimChar(s[i])
  }

  /** `find_first_not_of(" \t\n\r")` from `from` on. */
  function FirstNotTrim(s: string, from: nat): (r: Option<nat>)
    ensures r.Some? ==> from <= r.value < |s| && !IsTrimChar(s[r.value])
    ensures r.Some? ==> forall q :: from <= q < r.value ==> IsTrimChar(s[q])
    ensures r.None? ==> forall q :: from <= q < |s| ==> IsTrimChar(s[q])
    decreases |s| - from
  {
    if from >= |s| then None
    else if !IsTrimChar(s[from]) then Some(from)
    else FirstNotTrim(s, from + 1)
  }

  /** `find_last_not_of(" \t\n\r")` over the first `upTo` characters. */
  function LastNotTrim(s: string, upTo: nat): (r: Option<nat>)
    requires upTo <= |s|
    ensures r.Some? ==> r.value < upTo && !IsTrimChar(s[r.value])
    ensures r.Some? ==> forall q :: r.value < q < upTo ==> IsTrimChar(s[q])
    ensures r.None? ==> forall q :: 0 <= q < upTo ==> IsTrimChar(s[q])
  {
    if upTo == 0 then None
    else if !IsTrimChar(s[upTo - 1]) then Some(upTo - 1)
    else LastNotTrim(s, upTo - 1)
  }

  /** `TrimWhitespace`: the text from the first to the last character that is not " \t\n\r"; "" when there is none. */
  function TrimWhitespace(s: string): string {
    var start := FirstNotTrim(s, 0);
    if start.None? then ""
    else
      var end := LastNotTrim(s, |s|);
      if end.None? || end.value < start.value then assert false; ""
      else s[start.value..end.value + 1]
  }

  /**
   * The trimmed text is the input less a run of " \t\n\r" on each side; it
   * neither starts nor ends with one of them, and it is empty exactly when
   * the input is made of them only.
   */
  lemma TrimShape(s: string)
    ensures var r := TrimWhitespace(s);
            && (r == "" <==> AllTrimChars(s))
            && (r != "" ==> !IsTrimChar(r[0]) && !IsTrimChar(r[|r| - 1]))
            && exists k :: 0 <= k && k + |r| <= |s| && s[k..k + |r|] == r
                           && AllTrimChars(s[..k]) && AllTrimChars(s[k + |r|..])
  {
    var r := TrimWhitespace(s);
    var start := FirstNotTrim(s, 0);
    if start.None? {
      assert s[..0] == [] && s[0..] == s;
    } else {
      var k := start.value;
      var end := LastNotTrim(s, |s|).value;
      assert r == s[k..end + 1];
      assert k + |r| == end + 1;
      assert AllTrimChars(s[..k]) by {
        forall i | 0 <= i < k ensures IsTrimChar(s[..k][i]) {
          assert s[..k][i] == s[i];
        }
      }
      var tail := s[end + 1..];
      assert AllTrimChars(tail) by {
        forall i | 0 <= i < |tail| ensures IsTrimChar(tail[i]) {
          assert tail[i] == s[end + 1 + i];
        }
      }
      assert s[k..k + |r|] == r;
    }
  }

  /** Trimming twice is trimming once. */
  lemma TrimIdempotent(s: string)
    ensures TrimWhitespace(TrimWhitespace(s)) == TrimWhitespace(s)
  {
    var r := TrimWhitespace(s);
    TrimShape(s);
    if r != "" {
      assert FirstNotTrim(r, 0) == Some(0);
      assert LastNotTrim(r, |r|) == Some(|r| - 1);
      assert r[0..|r|] == r;
    }
  }

  /** The tokens `SplitString` gives for the text from `start` on: the pieces between successive `delimiter`s. */
  function SplitFrom(s: string, delimiter: string, start: nat): (tokens: seq<string>)
    requires |delimiter| > 0 && start <= |s|
    ensures |tokens| >= 1
    decreases |s| - start
  {
    match Find(s, delimiter, start)
    case None => [s[start..]]
    case Some(e) => [s[start..e]] + SplitFrom(s, delimiter, e + |delimiter|)
  }

  /** The tokens put back together with the delimiter between them. */
  function Join(tokens: seq<string>, delimiter: string): string {
    if tokens == [] then ""
    else if |tokens| == 1 then tokens[0]
    else tokens[0] + delimiter + Join(tokens[1..], delimiter)
  }

  /**
   * The number of times `delimiter` occurs in `s` from `from` on, counted
   * from the left without overlaps.
   */
  function Occurrences(s: string, delimiter: string, from: nat := 0): nat
    requires |delimiter| > 0
    decreases |s| - from
  {
    if from + |delimiter| > |s| then 0
    else if OccursAt(s, delimiter, from) then 1 + Occurrences(s, delimiter, from + |delimiter|)
    else Occurrences(s, delimiter, from + 1)
  }

  /** `SplitString`: each token up to the next delimiter, then what follows the last one. */
  method SplitString(str: string, delimiter: string) returns (tokens: seq<string>)
    requires |delimiter| > 0
    ensures tokens == SplitFrom(str, delimiter, 0)
  {
    tokens := [];
    var start := 0;
    var end := Find(str, delimiter, 0);
    while end.Some?
      invariant start <= |str|
      invariant end == Find(str, delimiter, start)
      invariant tokens + SplitFrom(str, delimiter, start) == SplitFrom(str, delimiter, 0)
      decreases |str| - start
    {
      var token := str[start..end.value];
      var next := end.value + |delimiter|;
      SplitFromStep(str, delimiter, start, tokens, token, next);
      tokens := tokens + [token];
      start := next;
      end := Find(str, delimiter, start);
    }
    assert SplitFrom(str, delimiter, start) == [str[start..]];
    tokens := tokens + [str[start..]];
  }

  /** One step of the loop: the token before the next delimiter moves from the remaining split to the tokens. */
  lemma SplitFromStep(s: string, delimiter: string, start: nat, tokens: seq<string>, token: string, next: nat)
    requires |delimiter| > 0 && start <= |s|
    requires Find(s, delimiter, start).Some?
    requires token == s[start..Find(s, delimiter, start).value]
    requires next == Find(s, delimiter, start).value + |delimiter|
    ensures next <= |s|
    ensures tokens + SplitFrom(s, delimiter, start) == (tokens + [token]) + SplitFrom(s, delimiter, next)
  {
    var rest := SplitFrom(s, delimiter, next);
    assert SplitFrom(s, delimiter, start) == [token] + rest;
    assert tokens + ([token] + rest) == (tokens + [token]) + rest;
  }

  /** Joining the tokens with the delimiter gives the text back. */
  lemma {:induction false} SplitJoin(s: string, delimiter: string, start: nat)
    requires |delimiter| > 0 && start <= |s|
    ensures Join(SplitFrom(s, delimiter, start), delimiter) == s[start..]
    decreases |s| - start
  {
    match Find(s, delimiter, start)
    case None =>
    case Some(e) =>
      var next := e + |delimiter|;
      var tail := SplitFrom(s, delimiter, next);
      assert SplitFrom(s, delimiter, start) == [s[start..e]] + tail;
      JoinCons(s[start..e], tail, delimiter);
      SplitJoin(s, delimiter, next);
      assert s[e..next] == delimiter;
      assert s[start..] == s[start..e] + s[e..next] + s[next..];
  }

  lemma JoinCons(head: string, tail: seq<string>, delimiter: string)
    requires tail != []
    ensures Join([head] + tail, delimiter) == head + delimiter + Join(tail, delimiter)
  {
    assert ([head] + tail)[1..] == tail;
  }

  /** There is one token more than there are delimiters in the text. */
  lemma {:induction false} SplitCount(s: string, delimiter: string, start: nat)
    requires |delimiter| > 0 && start <= |s|
    ensures |SplitFrom(s, delimiter, start)| == Occurrences(s, delimiter, start) + 1
    decreases |s| - start
  {
    var found := Find(s, delimiter, start);
    if found.None? {
      assert SplitFrom(s, delimiter, start) == [s[start..]];
      SkipNoOccurrence(s, delimiter, start, |s|);
    } else {
      var e := found.value;
      var next := e + |delimiter|;
      assert |SplitFrom(s, delimiter, start)| == 1 + |SplitFrom(s, delimiter, next)|;
      SkipNoOccurrence(s, delimiter, start, e);
      CountAtOccurrence(s, delimiter, e);
      SplitCount(s, delimiter, next);
    }
  }

  /** A delimiter found at `e` is counted once, and counting goes on after it. */
  lemma CountAtOccurrence(s: string, delimiter: string, e: nat)
    requires |delimiter| > 0 && OccursAt(s, delimiter, e)
    ensures Occurrences(s, delimiter, e) == 1 + Occurrences(s, delimiter, e + |delimiter|)
  {
  }

  /** Counting from `start` and from `e` agree when no delimiter starts in between. */
  lemma {:induction false} SkipNoOccurrence(s: string, delimiter: string, start: nat, e: nat)
    requires |delimiter| > 0 && start <= e <= |s|
    requires forall q :: start <= q < e ==> !OccursAt(s, delimiter, q)
    ensures Occurrences(s, delimiter, start) == Occurrences(s, delimiter, e)
    decreases e - start
  {
    if start < e && start + |delimiter| <= |s| {
      assert !OccursAt(s, delimiter, start);
      SkipNoOccurrence(s, delimiter, start + 1, e);
    }
  }

  /** `SplitString` on a whole text: occurrences + 1 tokens, joined back into the text. */
  lemma SplitStringProperties(s: string, delimiter: string)
    requires |delimiter| > 0
    ensures |SplitFrom(s, delimiter, 0)| == Occurrences(s, delimiter) + 1
    ensures Join(SplitFrom(s, delimiter, 0), delimiter) == s
  {
    SplitCount(s, delimiter, 0);
    SplitJoin(s, delimiter, 0);
    assert s[0..] == s;
  }

  /** Message i of `GenerateTestMessages`: a user message at even i, an assistant message at odd i. */
  function TestMessage(i: nat): Message {
    Message(if i % 2 == 0 then User else Assistant, "Test message " + NatToString(i + 1))
  }

  /** `GenerateTestMessages(count)`. */
  method GenerateTestMessages(count: SizeT) returns (messages: seq<Message>)
    ensures |messages| == count
    ensures forall i :: 0 <= i < count ==> messages[i] == TestMessage(i)
  {
    messages := [];
    for i := 0 to count
      invariant |messages| == i
      invariant forall k :: 0 <= k < i ==> messages[k] == TestMessage(k)
    {
      messages := messages + [TestMessage(i)];
    }
  }

  /**
   * The generated messages start with a user message, alternate between
   * user and assistant, carry no system message and all differ in content.
   */
  lemma TestMessagesProperties(messages: seq<Message>)
    requires forall i :: 0 <= i < |messages| ==> messages[i] == TestMessage(i)
    ensures |messages| > 0 ==> messages[0].role == User
    ensures forall i :: 0 < i < |messages| ==> messages[i].role != messages[i - 1].role
    ensures forall i :: 0 <= i < |messages| ==> messages[i].role != System
    ensures forall i, j :: 0 <= i < j < |messages| ==> messages[i].content != messages[j].content
  {
    forall i | 0 < i < |messages|
      ensures messages[i].role != messages[i - 1].role
    {
      TestRolesAlternate(i);
    }
    forall i, j | 0 <= i < j < |messages|
      ensures messages[i].content != messages[j].content
    {
      TestMessagesDiffer(i, j);
    }
  }

  lemma TestRolesAlternate(i: nat)
    requires i > 0
    ensures TestMessage(i).role != TestMessage(i - 1).role
  {
    assert (i - 1) % 2 == 0 <==> i % 2 != 0;
  }

  lemma TestMessagesDiffer(i: nat, j: nat)
    requires i < j
    ensures TestMessage(i).content != TestMessage(j).content
  {
    var prefix := "Test message ";
    var a, b := NatToString(i + 1), NatToString(j + 1);
    assert TestMessage(i).content == prefix + a;
    assert TestMessage(j).content == prefix + b;
    if prefix + a == prefix + b {
      assert (prefix + a)[|prefix|..] == a;
      assert (prefix + b)[|prefix|..] == b;
      NatToStringInjective(i + 1, j + 1);
    }
  }

  const TEST_CONVERSATION: seq<Message> := [
    Message(System, "You are a helpful test assistant."),
    Message(User, "Hello, how are you?"),
    Message(Assistant, "I'm doing well, thank you for asking!"),
    Message(User, "What can you help me with?")
  ]

  /** `CreateTestConversation`: a system prompt, then user, assistant, user. */
  method CreateTestConversation() returns (conv: Conversation)
    ensures fresh(conv) && conv.messages == TEST_CONVERSATION
  {
    conv := new Conversation();
    conv.AddSystem("You are a helpful test assistant.");
    conv.AddUser("Hello, how are you?");
    conv.AddAssistant("I'm doing well, thank you for asking!");
    conv.AddUser("What can you help me with?");
  }

  /** The test conversation has four messages, the system prompt only at the head. */
  lemma TestConversationShape()
    ensures |TEST_CONVERSATION| == 4
    ensures HasSystemHead(TEST_CONVERSATION) && SystemOnlyAtHead(TEST_CONVERSATION)
    ensures [TEST_CONVERSATION[1].role, TEST_CONVERSATION[2].role, TEST_CONVERSATION[3].role] == [User, Assistant, User]
  {
  }
}
