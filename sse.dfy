/**
 * `HttpClient::parse_sse_stream`: the decoder for server-sent events in an
 * OpenAI-style streaming body. It reads the body line by line, looks at the
 * lines that start with "data: ", stops at the "[DONE]" marker and reports
 * each `choices[0].delta.content` string it finds.
 */
module Sse {
  import opened Wrappers
  import opened Strings
  import opened Json

  const DATA_PREFIX: string := "data: "
  const DONE_MARKER: string := "[DONE]"

  /** One call of the stream callback: a chunk and the `is_done` flag. */
  datatype Callback = Callback(chunk: string, isDone: bool)

  /**
   * The lines `std::getline` yields: the text between '\n' separators, with
   * no line after a final '\n' and none at all for an empty body.
   */
  function Lines(s: string): (ls: seq<string>)
    ensures forall i :: 0 <= i < |ls| ==> '\n' !in ls[i]
    decreases |s|
  {
    if s == [] then []
    else
      match FindChar(s, '\n')
      case None => [s]
      case Some(i) => [s[..i]] + Lines(s[i + 1..])
  }

  /** Joining the lines with '\n' gives the body back, up to its final '\n'. */
  lemma {:induction false} LinesJoin(s: string)
    ensures JoinLines(Lines(s)) == s || JoinLines(Lines(s)) + "\n" == s
    decreases |s|
  {
    if s != [] {
      match FindChar(s, '\n')
      case None =>
        assert Lines(s) == [s];
      case Some(i) =>
        var head, rest := s[..i], s[i + 1..];
        assert s == head + "\n" + rest;
        LinesStep(s, i);
        if rest == [] {
          assert Lines(s) == [head];
        } else {
          var tail := Lines(rest);
          assert tail != [];
          JoinLinesCons(head, tail);
          LinesJoin(rest);
          var x := JoinLines(tail);
          if x != rest {
            assert head + "\n" + (x + "\n") == (head + "\n" + x) + "\n";
          }
        }
    }
  }

  /** The first line is the text up to the first '\n'; the rest are the lines after it. */
  lemma LinesStep(s: string, i: nat)
    requires s != [] && FindChar(s, '\n') == Some(i)
    ensures Lines(s) == [s[..i]] + Lines(s[i + 1..])
  {
  }

  lemma JoinLinesCons(head: string, tail: seq<string>)
    requires tail != []
    ensures JoinLines([head] + tail) == head + "\n" + JoinLines(tail)
  {
    assert ([head] + tail)[1..] == tail;
  }

  function JoinLines(ls: seq<string>): string {
    if ls == [] then "" else if |ls| == 1 then ls[0] else ls[0] + "\n" + JoinLines(ls[1..])
  }

  predicate IsDataLine(line: string) {
    |line| >= |DATA_PREFIX| && line[..|DATA_PREFIX|] == DATA_PREFIX
  }

  /**
   * The text `{"choices":[{"delta":{"content": c}}]}` carries: the content
   * when `choices[0].delta.content` exists; None when the test in the C++
   * code fails (nothing is reported) and also when it throws (the exception
   * is caught and the line skipped).
   */
  function DeltaContent(j: Json): (r: Option<string>)
    ensures r.Some? <==>
              && Contains(j, "choices") && j.fields["choices"].JArr? && |j.fields["choices"].items| > 0
              && Contains(j.fields["choices"].items[0], "delta")
              && Contains(j.fields["choices"].items[0].fields["delta"], "content")
              && j.fields["choices"].items[0].fields["delta"].fields["content"].JStr?
    ensures r.Some? ==> r.value == j.fields["choices"].items[0].fields["delta"].fields["content"].s
  {
    if !Contains(j, "choices") then None
    else
      var first := ElementZero(j.fields["choices"]);
      if first.Failure? || !Contains(first.value, "delta") then None
      else
        var delta := first.value.fields["delta"];
        if !Contains(delta, "content") then None
        else
          var content := GetString(delta.fields["content"]);
          if content.Failure? then None else Some(content.value)
  }

  /** What the decoder does with one line. */
  datatype LineAction = Skip | Emit(content: string) | Finish

  /** The action for a line; `parse` stands for `nlohmann::json::parse`, None when it throws. */
  function Classify(line: string, parse: string -> Option<Json>): LineAction {
    if !IsDataLine(line) then Skip
    else
      var payload := line[|DATA_PREFIX|..];
      if payload == DONE_MARKER then Finish
      else
        var j := parse(payload);
        if j.None? then Skip
        else
          var c := DeltaContent(j.value);
          if c.None? then Skip else Emit(c.value)
  }

  /** The callbacks the decoder makes for these lines, in order, stopping after the first Finish. */
  function Events(lines: seq<string>, parse: string -> Option<Json>): seq<Callback> {
    if lines == [] then []
    else
      match Classify(lines[0], parse)
      case Finish => [Callback("", true)]
      case Skip => Events(lines[1..], parse)
      case Emit(c) => [Callback(c, false)] + Events(lines[1..], parse)
  }

  /** Whether any of these lines is the done marker. */
  predicate HasFinish(lines: seq<string>, parse: string -> Option<Json>) {
    exists i :: 0 <= i < |lines| && Classify(lines[i], parse) == Finish
  }

  /**
   * At most one callback has `is_done` set, it is the last one, it carries
   * no text, and there is one exactly when some line is the done marker.
   */
  lemma {:induction false} DoneIsLastAndOnly(lines: seq<string>, parse: string -> Option<Json>)
    ensures var ev := Events(lines, parse);
            && (forall i :: 0 <= i < |ev| - 1 ==> !ev[i].isDone)
            && (|ev| > 0 && ev[|ev| - 1].isDone <==> HasFinish(lines, parse))
            && (|ev| > 0 && ev[|ev| - 1].isDone ==> ev[|ev| - 1].chunk == "")
  {
    if lines != [] {
      DoneIsLastAndOnly(lines[1..], parse);
      var action := Classify(lines[0], parse);
      if action != Finish {
        assert HasFinish(lines, parse) <==> HasFinish(lines[1..], parse) by {
          if HasFinish(lines[1..], parse) {
            var i :| 0 <= i < |lines[1..]| && Classify(lines[1..][i], parse) == Finish;
            assert Classify(lines[i + 1], parse) == Finish;
          }
          if HasFinish(lines, parse) {
            var i :| 0 <= i < |lines| && Classify(lines[i], parse) == Finish;
            assert i > 0 && Classify(lines[1..][i - 1], parse) == Finish;
          }
        }
      } else {
        assert Classify(lines[0], parse) == Finish;
      }
    }
  }

  /** Lines after the done marker are never looked at, and lines without "data: " add nothing. */
  lemma {:induction false} EventsAppend(a: seq<string>, b: seq<string>, parse: string -> Option<Json>)
    ensures !HasFinish(a, parse) ==> Events(a + b, parse) == Events(a, parse) + Events(b, parse)
    ensures HasFinish(a, parse) ==> Events(a + b, parse) == Events(a, parse)
  {
    if a != [] {
      assert (a + b)[1..] == a[1..] + b;
      assert (a + b)[0] == a[0];
      EventsAppend(a[1..], b, parse);
      if Classify(a[0], parse) != Finish {
        assert HasFinish(a, parse) <==> HasFinish(a[1..], parse) by {
          if HasFinish(a[1..], parse) {
            var i :| 0 <= i < |a[1..]| && Classify(a[1..][i], parse) == Finish;
            assert Classify(a[i + 1], parse) == Finish;
          }
          if HasFinish(a, parse) {
            var i :| 0 <= i < |a| && Classify(a[i], parse) == Finish;
            assert i > 0 && Classify(a[1..][i - 1], parse) == Finish;
          }
        }
      }
    } else {
      assert a + b == b;
    }
  }

  /** Every emitted chunk is the delta content of a data line, and those callbacks never set `is_done`. */
  lemma {:induction false} EmittedChunksComeFromDataLines(lines: seq<string>, parse: string -> Option<Json>, k: nat)
    requires k < |Events(lines, parse)| && !Events(lines, parse)[k].isDone
    ensures exists i :: 0 <= i < |lines| && IsDataLine(lines[i])
                        && Classify(lines[i], parse) == Emit(Events(lines, parse)[k].chunk)
  {
    var action := Classify(lines[0], parse);
    if action.Emit? && k == 0 {
      assert Classify(lines[0], parse) == Emit(Events(lines, parse)[0].chunk);
    } else {
      var k' := if action.Emit? then k - 1 else k;
      assert Events(lines, parse)[k] == Events(lines[1..], parse)[k'];
      EmittedChunksComeFromDataLines(lines[1..], parse, k');
      var i :| 0 <= i < |lines[1..]| && IsDataLine(lines[1..][i])
               && Classify(lines[1..][i], parse) == Emit(Events(lines[1..], parse)[k'].chunk);
      assert lines[1..][i] == lines[i + 1];
    }
  }

  /** One data line carrying a standard delta chunk is reported as exactly that content. */
  lemma DeltaChunkLine(payload: string, content: string, parse: string -> Option<Json>)
    requires payload != DONE_MARKER
    requires parse(payload) == Some(JObj(map["choices" := JArr([JObj(map["delta" := JObj(map["content" := JStr(content)])])])]))
    ensures Events([DATA_PREFIX + payload], parse) == [Callback(content, false)]
  {
    var line := DATA_PREFIX + payload;
    assert line[..|DATA_PREFIX|] == DATA_PREFIX;
    assert line[|DATA_PREFIX|..] == payload;
  }

  /**
   * The decoder: reads `data` line by line as `std::getline` does and
   * returns the callbacks it makes, in order.
   */
  method ParseSseStream(data: string, parse: string -> Option<Json>) returns (calls: seq<Callback>)
    ensures calls == Events(Lines(data), parse)
  {
    calls := [];
    var pos := 0;
    while pos < |data|
      invariant 0 <= pos <= |data|
      invariant Events(Lines(data), parse) == calls + Events(Lines(data[pos..]), parse)
      decreases |data| - pos
    {
      var rest := data[pos..];
      var nl := FindChar(rest, '\n');
      var line := if nl.Some? then rest[..nl.value] else rest;
      var next := if nl.Some? then pos + nl.value + 1 else |data|;
      assert Lines(rest) == [line] + Lines(data[next..]) by {
        if nl.Some? {
          LinesStep(rest, nl.value);
          assert rest[nl.value + 1..] == data[next..];
        } else {
          assert data[next..] == [];
        }
      }
      var action := Classify(line, parse);
      var later := Events(Lines(data[next..]), parse);
      EventsCons(line, Lines(data[next..]), parse);
      if action == Finish {
        calls := calls + [Callback("", true)];
        return;
      }
      ghost var before := calls;
      if action.Emit? {
        calls := calls + [Callback(action.content, false)];
        assert before + ([Callback(action.content, false)] + later) == calls + later;
      }
      pos := next;
    }
  }

  /** The callbacks for one more line in front. */
  lemma EventsCons(line: string, more: seq<string>, parse: string -> Option<Json>)
    ensures var ev := Events([line] + more, parse);
            match Classify(line, parse)
            case Finish => ev == [Callback("", true)]
            case Skip => ev == Events(more, parse)
            case Emit(c) => ev == [Callback(c, false)] + Events(more, parse)
  {
    assert ([line] + more)[1..] == more;
  }
}
